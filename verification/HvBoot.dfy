/** Bringing the machine up: VMs created, the device profile applied, VMs finalized and
    started, then trust, fault detection, monitoring and failover switched on. */
module HvBoot {
  import opened Words
  import opened Stage2Spec
  import opened VmSpec
  import opened HvSpec
  import opened HvInv
  import opened HvFrames
  import opened HvRuns
  import TableBudget

  const MAX_MEM_REGIONS: nat := 8

  const NoTrust: TrustRec := TrustRec(Unknown, 0, 0, 0, 0, 0)
  const NoBackup: Backup := Backup(false, 0, 0, 0, 0, false, 0)
  const NoMon: Mon := Mon(0, 0, 0, 0, 0, Unknown)

  /** Before anything ran. */
  const Reset: Hv :=
    Hv([], [], Empty, Trust(false, [NoTrust, NoTrust, NoTrust, NoTrust], 0, 0), false,
       [NoBackup, NoBackup, NoBackup, NoBackup], Ids(false, [NoMon, NoMon, NoMon, NoMon], [], 0, 0, 0, 0),
       Stats(false, 0, 0, 0, 0))

  /** A new VM takes the next pool page for its top-level table. */
  function VmCreate(h: Hv, kind: Kind, entry: u64, dtb: u64): (r: Res)
    requires Sized(h)
    ensures Sized(r.hv)
  {
    if |h.vms| >= MAX_VMS then Res(h, NoMem)
    else
      var root := Tables(h.s2);
      var vm := Vm(|h.vms| + 1, Created, kind, [], root, [], entry, dtb);
      Res(h.(vms := h.vms + [vm], s2 := Create(h.s2, root)), Ok)
  }

  // ---------- the device profile ----------

  ghost function VmAddMem(h: Hv, id: int, g: Region): (r: Res)
    requires Sized(h) && Exists(h, id)
    ensures Sized(r.hv) && |r.hv.vms| == |h.vms|
  {
    var vm := h.vms[id - 1];
    if g.size == 0 then Res(h, Inval)
    else if |vm.mem| >= MAX_MEM_REGIONS then Res(h, NoMem)
    else if AnyMapped(h.s2, vm.root, g.ipa, g.size) then Res(h, Busy)
    else if g.size > 0xFFFF_FFFF_FFFF_F000 then Res(h, Hangs)
    else Res(WithVm(h, id, vm.(mem := vm.mem + [g])), Ok)
  }

  datatype Entry = Entry(vm: int, region: Region)

  /** Entries of absent VMs are passed over; the first error ends the walk. */
  ghost function AddEntries(h: Hv, es: seq<Entry>): (r: Res)
    requires Sized(h)
    ensures Sized(r.hv) && |r.hv.vms| == |h.vms|
  {
    if es == [] then Res(h, Ok)
    else
      var a, e := AddEntries(h, es[..|es| - 1]), es[|es| - 1];
      if a.err != Ok || !Exists(a.hv, e.vm) then a else VmAddMem(a.hv, e.vm, e.region)
  }

  /** The regions of one VM, in table order. */
  function ForVm(es: seq<Entry>, id: int): seq<Region> {
    if es == [] then []
    else
      var rest := ForVm(es[..|es| - 1], id);
      if es[|es| - 1].vm == id then rest + [es[|es| - 1].region] else rest
  }

  function WithRegions(vms: seq<Vm>, es: seq<Entry>): (r: seq<Vm>)
    ensures |r| == |vms| && forall i :: 0 <= i < |vms| ==> r[i] == vms[i].(mem := ForVm(es, i + 1))
  {
    seq(|vms|, i requires 0 <= i < |vms| => vms[i].(mem := ForVm(es, i + 1)))
  }

  predicate FitRegion(g: Region) {
    0 < g.size <= 0xFFFF_FFFF_FFFF_F000
  }

  /** No region is empty or reaches the last page size, and no VM has more than eight. */
  predicate Acceptable(n: int, es: seq<Entry>) {
    forall id :: 1 <= id <= n ==> FitRegions(ForVm(es, id))
  }

  predicate FitRegions(gs: seq<Region>) {
    |gs| <= MAX_MEM_REGIONS && forall j :: 0 <= j < |gs| ==> FitRegion(gs[j])
  }

  /** No VM has regions or mapped pages yet. */
  predicate Blank(h: Hv) {
    h.s2.leaf == map[] && forall i :: 0 <= i < |h.vms| ==> h.vms[i].mem == []
  }

  lemma AcceptableInit(n: int, es: seq<Entry>)
    requires es != []
    ensures var init, e := es[..|es| - 1], es[|es| - 1];
            Acceptable(n, es) <==>
              Acceptable(n, init) && (1 <= e.vm <= n ==> FitRegion(e.region) && |ForVm(init, e.vm)| < MAX_MEM_REGIONS)
  {
    hide FitRegion;
    var init, e := es[..|es| - 1], es[|es| - 1];
    var gs := ForVm(init, e.vm) + [e.region];
    assert FitRegions(gs) <==> FitRegions(ForVm(init, e.vm)) && FitRegion(e.region) && |ForVm(init, e.vm)| < MAX_MEM_REGIONS by {
      assert gs[|gs| - 1] == e.region && gs[..|gs| - 1] == ForVm(init, e.vm);
      assert forall j :: 0 <= j < |gs| - 1 ==> gs[j] == ForVm(init, e.vm)[j];
    }
    forall id ensures ForVm(es, id) == if e.vm == id then gs else ForVm(init, id) { }
    assert 1 <= e.vm <= n && Acceptable(n, es) ==> FitRegions(ForVm(es, e.vm));
    assert 1 <= e.vm <= n && Acceptable(n, init) ==> FitRegions(ForVm(init, e.vm));
  }

  /** The overlap check looks at the tables, and before the first finalize those are
      empty: a profile is taken as it stands, overlapping or not, exactly when no region
      is empty or huge and no VM has more than eight. */
  lemma {:induction false} ProfileAccepted(h: Hv, es: seq<Entry>)
    requires Sized(h) && Blank(h)
    ensures AddEntries(h, es).err == Ok <==> Acceptable(|h.vms|, es)
    ensures Acceptable(|h.vms|, es) ==> AddEntries(h, es).hv == h.(vms := WithRegions(h.vms, es))
  {
    if es == [] {
      assert WithRegions(h.vms, es) == h.vms;
    } else {
      var init, e := es[..|es| - 1], es[|es| - 1];
      ProfileAccepted(h, init);
      AcceptableInit(|h.vms|, es);
      if Acceptable(|h.vms|, init) {
        AddOne(h, init, e, es);
      }
    }
  }

  lemma AddOne(h: Hv, init: seq<Entry>, e: Entry, es: seq<Entry>)
    requires Sized(h) && Blank(h) && es != [] && es[..|es| - 1] == init && es[|es| - 1] == e
    requires AddEntries(h, init) == Res(h.(vms := WithRegions(h.vms, init)), Ok)
    ensures AddEntries(h, es).err == Ok <==>
              (Exists(h, e.vm) ==> FitRegion(e.region) && |ForVm(init, e.vm)| < MAX_MEM_REGIONS)
    ensures AddEntries(h, es).err == Ok ==> AddEntries(h, es).hv == h.(vms := WithRegions(h.vms, es))
  {
    var a := AddEntries(h, init).hv;
    if Exists(h, e.vm) {
      var vm := a.vms[e.vm - 1];
      assert a.vms[e.vm - 1 := vm.(mem := vm.mem + [e.region])] == WithRegions(h.vms, es);
    } else {
      assert a.vms == WithRegions(h.vms, es);
    }
  }

  // ---------- platform initialisation ----------

  function CreateThree(): (r: Hv)
    ensures Sized(r)
  {
    var a := VmCreate(Reset, Linux, 0x20_0000, 0x400_0000).hv;
    var b := VmCreate(a, Rtos, 0x8000, 0).hv;
    VmCreate(b, Android, 0x20_0000, 0x200_0000).hv
  }

  function LaunchOne(h: Hv, id: int): (r: Res)
    requires Sized(h) && Exists(h, id)
    ensures Sized(r.hv) && |r.hv.vms| == |h.vms|
  {
    var f := VmFinalize(h, id);
    if f.err != Ok then f else VmStart(f.hv, id)
  }

  /** Finalize and start the first n VMs, up to the first error. */
  function LaunchFirst(h: Hv, n: nat): (r: Res)
    requires Sized(h) && n <= |h.vms|
    ensures Sized(r.hv) && |r.hv.vms| == |h.vms|
  {
    if n == 0 then Res(h, Ok)
    else
      var r := LaunchFirst(h, n - 1);
      if r.err != Ok then r else LaunchOne(r.hv, n)
  }

  ghost function PlatformInit(es: seq<Entry>): (r: Res)
    ensures Sized(r.hv)
  {
    var a := AddEntries(CreateThree(), es);
    if a.err != Ok then a else LaunchFirst(a.hv, |a.hv.vms|)
  }

  function TrustInit(h: Hv, genuine: set<int>): (r: Hv)
    requires Sized(h)
    ensures Sized(r)
  {
    var recs := seq(MAX_VMS, i requires 0 <= i =>
      NoTrust.(level := if i >= |h.vms| then Unknown else if i + 1 in genuine then Trusted else Quarantine));
    h.(trust := Trust(true, recs, 0, 0))
  }

  function MonitorInit(h: Hv, now: u64): (r: Hv)
    requires Sized(h)
    ensures Sized(r)
  {
    var mon := seq(MAX_VMS, i requires 0 <= i => Mon(now, 0, 0, 0, 0, TrustGet(h, i + 1)));
    h.(ids := Ids(true, mon, [], 0, 0, 0, now))
  }

  /** The RTOS is critical and has a backup image. */
  const RtosBackup: Backup := Backup(true, 0x9000_0000, 0x6000_8000, 0x2000, 0x8000, true, 0)

  /** Trust, fault detection, monitoring and failover, in this order, and the RTOS
      registered for failover. */
  function SwitchOn(h: Hv, genuine: set<int>, now: u64): (r: Hv)
    requires Sized(h)
    ensures Sized(r)
  {
    var t := TrustInit(h, genuine).(stats := Stats(true, 0, 0, 0, 0));
    var m := MonitorInit(t, now).(failoverUp := true, backups := [NoBackup, NoBackup, NoBackup, NoBackup]);
    FailoverRegister(m, 2, RtosBackup.pa, RtosBackup.live, RtosBackup.size, RtosBackup.entry).hv
  }

  ghost function Boot(es: seq<Entry>, genuine: set<int>, now: u64): (r: Hv)
    ensures Sized(r)
  {
    SwitchOn(PlatformInit(es).hv, genuine, now)
  }

  // ---------- what boot leaves ----------

  /** The three VMs after the profile was applied, before they are finalized. */
  function Profiled(m0: seq<Region>, m1: seq<Region>, m2: seq<Region>): (r: Hv)
    ensures Sized(r) && |r.vms| == 3
  {
    Reset.(vms := [Vm(1, Created, Linux, m0, 0, [], 0x20_0000, 0x400_0000),
                   Vm(2, Created, Rtos, m1, 1, [], 0x8000, 0),
                   Vm(3, Created, Android, m2, 2, [], 0x20_0000, 0x200_0000)],
           s2 := Create(Create(Create(Empty, 0), 1), 2))
  }

  lemma CreatedThree()
    ensures CreateThree() == Profiled([], [], []) && Blank(CreateThree())
  {
    var a := VmCreate(Reset, Linux, 0x20_0000, 0x400_0000).hv;
    var b := VmCreate(a, Rtos, 0x8000, 0).hv;
    assert Tables(Empty) == 0 && Tables(a.s2) == 1 && Tables(b.s2) == 2;
  }

  lemma ProfiledIsCreated(es: seq<Entry>)
    ensures AddEntries(CreateThree(), es).err == Ok <==> Acceptable(3, es)
    ensures Acceptable(3, es) ==> AddEntries(CreateThree(), es).hv == Profiled(ForVm(es, 1), ForVm(es, 2), ForVm(es, 3))
  {
    hide AddEntries, Acceptable, ForVm;
    CreatedThree();
    ProfileAccepted(CreateThree(), es);
    var p := Profiled([], [], []);
    assert WithRegions(p.vms, es) == Profiled(ForVm(es, 1), ForVm(es, 2), ForVm(es, 3)).vms;
  }

  lemma LaunchEffect(h: Hv, id: int)
    requires Sized(h) && Exists(h, id) && |h.vcpus| + VcpusOf(h.vms[id - 1].kind) <= VCPU_POOL
    ensures var vm := h.vms[id - 1];
            var n := VcpusOf(vm.kind);
            && (LaunchOne(h, id).err == Ok <==> AllAligned(vm.mem))
            && (AllAligned(vm.mem) ==>
                  LaunchOne(h, id).hv == h.(vms := h.vms[id - 1 := vm.(state := Running, vcpus := NextVcpus(|h.vcpus|, n))],
                                            vcpus := h.vcpus + FreshVcpus(vm, n),
                                            s2 := Built(h.s2, vm.root, vm.kind, vm.mem)))
  {
    if AllAligned(h.vms[id - 1].mem) { FinalizeEffect(h, id); }
  }

  predicate Launched(p: Hv, g: Hv, m0: seq<Region>, m1: seq<Region>, m2: seq<Region>) {
    && Sized(g) && |p.vms| == |g.vms| == 3
    && g.vcpus == [Vcpu(1, 0, VReady, 0x20_0000, 0x400_0000), Vcpu(2, 0, VReady, 0x8000, 0),
                   Vcpu(3, 0, VReady, 0x20_0000, 0x200_0000), Vcpu(3, 1, VReady, 0x20_0000, 0x200_0000)]
    && g.vms[0].vcpus == [0] && g.vms[1].vcpus == [1] && g.vms[2].vcpus == [2, 3]
    && g.s2 == TableBudget.BootTables(m0, m1, m2)
    && (forall i :: 0 <= i < 3 ==> SameIdentity(g.vms[i], p.vms[i]) && g.vms[i].state == Running)
  }

  /** All three VMs start exactly when every region is aligned; then the tables are those
      of the three region lists, and four vCPUs are out, each at the entry of its VM. */
  lemma AllLaunched(m0: seq<Region>, m1: seq<Region>, m2: seq<Region>)
    ensures var r := LaunchFirst(Profiled(m0, m1, m2), 3);
            && (r.err == Ok <==> AllAligned(m0) && AllAligned(m1) && AllAligned(m2))
            && (r.err == Ok ==> Launched(Profiled(m0, m1, m2), r.hv, m0, m1, m2))
  {
    hide LaunchOne, Built, AllAligned;
    var p := Profiled(m0, m1, m2);
    var n := |p.vms|;
    assert LaunchFirst(p, n - 3) == Res(p, Ok);
    var a, b, r := LaunchFirst(p, n - 2), LaunchFirst(p, n - 1), LaunchFirst(p, n);
    assert a == LaunchOne(p, 1);
    assert b == if a.err != Ok then a else LaunchOne(a.hv, 2);
    assert r == if b.err != Ok then b else LaunchOne(b.hv, 3);
    LaunchEffect(p, 1);
    if AllAligned(m0) {
      LaunchEffect(a.hv, 2);
      if AllAligned(m1) { LaunchEffect(b.hv, 3); }
    }
  }

  predicate AllFit(es: seq<Entry>) {
    Acceptable(3, es) && AllAligned(ForVm(es, 1)) && AllAligned(ForVm(es, 2)) && AllAligned(ForVm(es, 3))
  }

  /** Platform initialisation succeeds exactly for these profiles. */
  lemma PlatformExact(es: seq<Entry>)
    ensures PlatformInit(es).err == Ok <==> AllFit(es)
    ensures AllFit(es) ==>
              var (m0, m1, m2) := (ForVm(es, 1), ForVm(es, 2), ForVm(es, 3));
              Launched(Profiled(m0, m1, m2), PlatformInit(es).hv, m0, m1, m2)
  {
    hide AddEntries, Acceptable, ForVm, LaunchFirst, Launched, Profiled, AllAligned, CreateThree;
    ProfiledIsCreated(es);
    AllLaunched(ForVm(es, 1), ForVm(es, 2), ForVm(es, 3));
    CreatedSize();
  }

  lemma CreatedSize()
    ensures |CreateThree().vms| == 3
  {
    CreatedThree();
  }

  /** Each of the three page maps is the one its own region list describes. */
  lemma BootMaps(m0: seq<Region>, m1: seq<Region>, m2: seq<Region>, k: int)
    requires AllAligned(m0) && AllAligned(m1) && AllAligned(m2)
    ensures var t := TableBudget.BootTables(m0, m1, m2);
            && LookUp(t, 0, k) == VmExpected(Linux, m0, k)
            && LookUp(t, 1, k) == VmExpected(Rtos, m1, k)
            && LookUp(t, 2, k) == VmExpected(Android, m2, k)
  {
    var s := Create(Create(Create(Empty, 0), 1), 2);
    var s1 := Built(s, 0, Linux, m0);
    var s2 := Built(s1, 1, Rtos, m1);
    BuiltLeaf(s, 0, Linux, m0, 0, k);
    BuiltLeaf(s, 0, Linux, m0, 1, k);
    BuiltLeaf(s, 0, Linux, m0, 2, k);
    BuiltLeaf(s1, 1, Rtos, m1, 0, k);
    BuiltLeaf(s1, 1, Rtos, m1, 1, k);
    BuiltLeaf(s1, 1, Rtos, m1, 2, k);
    BuiltLeaf(s2, 2, Android, m2, 0, k);
    BuiltLeaf(s2, 2, Android, m2, 1, k);
    BuiltLeaf(s2, 2, Android, m2, 2, k);
  }

  lemma BootVmOk(g: Hv, i: int, root: int, kind: Kind, mem: seq<Region>, m0: seq<Region>, m1: seq<Region>, m2: seq<Region>)
    requires AllAligned(m0) && AllAligned(m1) && AllAligned(m2)
    requires 0 <= i < |g.vms| && g.s2 == TableBudget.BootTables(m0, m1, m2) && g.vms[i].state == Running
    requires g.vms[i].id == i + 1 && g.vms[i].root == root && g.vms[i].kind == kind && g.vms[i].mem == mem
    requires (root, kind, mem) == (0, Linux, m0) || (root, kind, mem) == (1, Rtos, m1) || (root, kind, mem) == (2, Android, m2)
    ensures VmOk(g, i)
  {
    TableBudget.ThreeVms(m0, m1, m2);
    var vm, s := g.vms[i], g.s2;
    forall k ensures MapAt(vm, s, k) { BootMaps(m0, m1, m2, k); }
  }

  /** What boot leaves, part by part. */
  predicate Booted(g: Hv, m0: seq<Region>, m1: seq<Region>, m2: seq<Region>, genuine: set<int>) {
    && Launched(Profiled(m0, m1, m2), g, m0, m1, m2)
    && g.trust.up && g.failoverUp && g.ids.up && g.stats.up
    && g.backups == [NoBackup, RtosBackup, NoBackup, NoBackup]
    && (forall i :: 0 <= i < 4 ==> g.trust.recs[i].faults == 0)
    && (forall i :: 0 <= i < 3 ==> g.trust.recs[i].level == if i + 1 in genuine then Trusted else Quarantine)
    && g.trust.recs[3].level == Unknown
    && (forall i :: 0 <= i < 4 ==> g.trust.recs[i].lastFaultAt == 0)
    && (forall i :: 0 <= i < 4 ==> g.ids.mon[i].seen == g.trust.recs[i].level)
    && (forall i :: 0 <= i < 4 ==> g.ids.mon[i].lastType == 0 && g.ids.mon[i].run == 0 && g.ids.mon[i].first == 0)
    && g.ids.log == [] && g.ids.alerts == g.ids.anomalies == g.ids.enforcements == 0
  }

  lemma SwitchedOn(p: Hv, q: Hv, m0: seq<Region>, m1: seq<Region>, m2: seq<Region>, genuine: set<int>, now: u64)
    requires q == Profiled(m0, m1, m2) && Launched(q, p, m0, m1, m2)
    ensures Booted(SwitchOn(p, genuine, now), m0, m1, m2, genuine)
  {
    hide Profiled, TableBudget.BootTables, SameIdentity;
  }

  lemma BootedVms(g: Hv, m0: seq<Region>, m1: seq<Region>, m2: seq<Region>, genuine: set<int>)
    requires AllAligned(m0) && AllAligned(m1) && AllAligned(m2) && Booted(g, m0, m1, m2, genuine)
    ensures forall i :: 0 <= i < 3 ==> VmOk(g, i)
  {
    hide VmOk;
    BootVmOk(g, 0, 0, Linux, m0, m0, m1, m2);
    BootVmOk(g, 1, 1, Rtos, m1, m0, m1, m2);
    BootVmOk(g, 2, 2, Android, m2, m0, m1, m2);
  }

  lemma FirstUse(g: Hv)
    requires Sized(g) && |g.vms| == 3 && forall i :: 0 <= i < 4 ==> g.backups[i].count == 0
    requires g.vms[0].kind == Linux && g.vms[1].kind == Rtos && g.vms[2].kind == Android
    ensures Use(g, |g.vms|) == 4 && BootVcpus(g, |g.vms|) == 4
  {
    var n := |g.vms|;
    assert Use(g, n - 3) == 0 && BootVcpus(g, n - 3) == 0;
    assert Use(g, n - 2) == 1 && BootVcpus(g, n - 2) == 1;
    assert Use(g, n - 1) == 2 && BootVcpus(g, n - 1) == 2;
  }

  lemma BootedBase(g: Hv, m0: seq<Region>, m1: seq<Region>, m2: seq<Region>, genuine: set<int>)
    requires AllAligned(m0) && AllAligned(m1) && AllAligned(m2) && Booted(g, m0, m1, m2, genuine)
    ensures Base(g)
  {
    hide VmOk, Use, BootVcpus;
    BootedVms(g, m0, m1, m2, genuine);
    FirstUse(g);
  }

  lemma BootedCells(g: Hv, m0: seq<Region>, m1: seq<Region>, m2: seq<Region>, genuine: set<int>, i: int)
    requires Booted(g, m0, m1, m2, genuine) && 0 <= i < 3
    ensures CellOf(g, i) == Cell(Running, if i + 1 in genuine then Trusted else Quarantine, 0, i == 1, 0)
  {
    hide TableBudget.BootTables, Profiled;
  }

  /** Boot ends with all VMs running, their tables in place and the vCPU books right,
      whatever the images. The fault budget holds from there exactly when the RTOS image
      is genuine, as it is registered for failover even when quarantined, and the VMs
      that must not run do not run exactly when every image is genuine. */
  lemma BootIsSound(es: seq<Entry>, genuine: set<int>, now: u64)
    requires AllFit(es)
    ensures var g := Boot(es, genuine, now);
            && Booted(g, ForVm(es, 1), ForVm(es, 2), ForVm(es, 3), genuine)
            && Base(g) && (Sound(g) <==> 2 in genuine) && (Contained(g) <==> {1, 2, 3} <= genuine)
  {
    var m0, m1, m2 := ForVm(es, 1), ForVm(es, 2), ForVm(es, 3);
    var g := Boot(es, genuine, now);
    PlatformExact(es);
    SwitchedOn(PlatformInit(es).hv, Profiled(m0, m1, m2), m0, m1, m2, genuine, now);
    hide Boot, ForVm, Acceptable, AllAligned, Booted;
    BootedBase(g, m0, m1, m2, genuine);
    BootedVerdict(g, m0, m1, m2, genuine);
  }

  lemma BootedVerdict(g: Hv, m0: seq<Region>, m1: seq<Region>, m2: seq<Region>, genuine: set<int>)
    requires Booted(g, m0, m1, m2, genuine) && Base(g)
    ensures (Sound(g) <==> 2 in genuine) && (Contained(g) <==> {1, 2, 3} <= genuine)
  {
    BootedSize(g, m0, m1, m2, genuine);
    hide Booted, Base;
    BootedCells(g, m0, m1, m2, genuine, 0);
    BootedCells(g, m0, m1, m2, genuine, 1);
    BootedCells(g, m0, m1, m2, genuine, 2);
    hide CellOf;
  }

  lemma BootedSize(g: Hv, m0: seq<Region>, m1: seq<Region>, m2: seq<Region>, genuine: set<int>)
    requires Booted(g, m0, m1, m2, genuine)
    ensures Sized(g) && |g.vms| == 3 && g.trust.up && g.s2 == TableBudget.BootTables(m0, m1, m2)
  {
  }

  // ---------- the shipped profile ----------

  function Tagged(vm: int, gs: seq<Region>): seq<Entry> {
    seq(|gs|, i requires 0 <= i < |gs| => Entry(vm, gs[i]))
  }

  /** The order in which the device profile lists the entries of the three VMs. */
  function Interleaved(l: seq<Region>, r: seq<Region>, a: seq<Region>): seq<Entry>
    requires |l| == 7 && |r| == |a| == 3
  {
    Tagged(1, l[..5]) + Tagged(2, r[..2]) + Tagged(1, l[5..6]) + Tagged(3, a[..2])
    + Tagged(1, l[6..]) + Tagged(2, r[2..]) + Tagged(3, a[2..])
  }

  function Shipped(): seq<Entry> {
    Interleaved(TableBudget.LinuxRegions, TableBudget.RtosRegions, TableBudget.AndroidRegions)
  }

  lemma {:induction false} ForVmConcat(a: seq<Entry>, b: seq<Entry>, id: int)
    ensures ForVm(a + b, id) == ForVm(a, id) + ForVm(b, id)
  {
    if b == [] {
      assert a + b == a;
    } else {
      ForVmConcat(a, b[..|b| - 1], id);
      assert (a + b)[..|a + b| - 1] == a + b[..|b| - 1];
    }
  }

  lemma {:induction false} ForVmTagged(vm: int, gs: seq<Region>, id: int)
    ensures ForVm(Tagged(vm, gs), id) == if vm == id then gs else []
  {
    if gs != [] {
      ForVmTagged(vm, gs[..|gs| - 1], id);
      assert Tagged(vm, gs)[..|gs| - 1] == Tagged(vm, gs[..|gs| - 1]);
    }
  }

  lemma ForVmSeven(a: seq<Entry>, b: seq<Entry>, c: seq<Entry>, d: seq<Entry>, e: seq<Entry>, f: seq<Entry>, g: seq<Entry>, id: int)
    ensures ForVm(a + b + c + d + e + f + g, id) ==
              ForVm(a, id) + ForVm(b, id) + ForVm(c, id) + ForVm(d, id) + ForVm(e, id) + ForVm(f, id) + ForVm(g, id)
  {
    hide ForVm;
    ForVmConcat(a + b + c + d + e + f, g, id);
    ForVmConcat(a + b + c + d + e, f, id);
    ForVmConcat(a + b + c + d, e, id);
    ForVmConcat(a + b + c, d, id);
    ForVmConcat(a + b, c, id);
    ForVmConcat(a, b, id);
  }

  /** Taken apart by VM, the table is the three region lists. */
  lemma InterleavedApart(l: seq<Region>, r: seq<Region>, a: seq<Region>, id: int)
    requires |l| == 7 && |r| == |a| == 3 && 1 <= id <= 3
    ensures ForVm(Interleaved(l, r, a), id) == if id == 1 then l else if id == 2 then r else a
  {
    hide ForVm, Tagged;
    ForVmSeven(Tagged(1, l[..5]), Tagged(2, r[..2]), Tagged(1, l[5..6]), Tagged(3, a[..2]),
               Tagged(1, l[6..]), Tagged(2, r[2..]), Tagged(3, a[2..]), id);
    ForVmTagged(1, l[..5], id);
    ForVmTagged(2, r[..2], id);
    ForVmTagged(1, l[5..6], id);
    ForVmTagged(3, a[..2], id);
    ForVmTagged(1, l[6..], id);
    ForVmTagged(2, r[2..], id);
    ForVmTagged(3, a[2..], id);
    SevenParts(l, r, a, id);
  }

  lemma SevenParts(l: seq<Region>, r: seq<Region>, a: seq<Region>, id: int)
    requires |l| == 7 && |r| == |a| == 3
    ensures id == 1 ==> l[..5] + [] + l[5..6] + [] + l[6..] + [] + [] == l
    ensures id == 2 ==> [] + r[..2] + [] + [] + [] + r[2..] + [] == r
    ensures id == 3 ==> [] + [] + [] + a[..2] + [] + [] + a[2..] == a
  {
  }

  lemma InterleavedFits(l: seq<Region>, r: seq<Region>, a: seq<Region>)
    requires |l| == 7 && |r| == |a| == 3 && FitRegions(l) && FitRegions(r) && FitRegions(a)
    requires AllAligned(l) && AllAligned(r) && AllAligned(a)
    ensures AllFit(Interleaved(l, r, a))
  {
    hide ForVm, Interleaved, FitRegions, AllAligned;
    InterleavedApart(l, r, a, 1);
    InterleavedApart(l, r, a, 2);
    InterleavedApart(l, r, a, 3);
  }

  lemma ShippedRegions()
    ensures FitRegions(TableBudget.LinuxRegions)
    ensures FitRegions(TableBudget.RtosRegions) && FitRegions(TableBudget.AndroidRegions)
  {
  }

  lemma ShippedFits()
    ensures AllFit(Shipped())
    ensures ForVm(Shipped(), 1) == TableBudget.LinuxRegions && ForVm(Shipped(), 2) == TableBudget.RtosRegions
    ensures ForVm(Shipped(), 3) == TableBudget.AndroidRegions
  {
    hide ForVm, Interleaved, FitRegions, AllAligned, AllFit;
    var l, r, a := TableBudget.LinuxRegions, TableBudget.RtosRegions, TableBudget.AndroidRegions;
    ShippedRegions();
    TableBudget.ProfilesAligned();
    InterleavedFits(l, r, a);
    InterleavedApart(l, r, a, 1);
    InterleavedApart(l, r, a, 2);
    InterleavedApart(l, r, a, 3);
  }

  lemma BaseFurnished(h: Hv)
    requires Base(h)
    ensures Sized(h) && h.trust.up && Furnished(h)
  {
    forall i | 0 <= i < |h.vms| ensures Reserved(h.s2, h.vms[i].root, h.vms[i].kind, h.vms[i].mem) {
      assert VmOk(h, i);
    }
  }

  /** With the shipped profile, 964 of the 1024 table pages are in use after boot and
      after every run from there, whatever the images. */
  lemma BootedRunFits(genuine: set<int>, now: u64, run: Run)
    ensures Tables(After(Boot(Shipped(), genuine, now), run).s2) == 964
  {
    hide Boot, Shipped, Booted, Base, After, TableBudget.BootTables, ForVm;
    var l, r, a := TableBudget.LinuxRegions, TableBudget.RtosRegions, TableBudget.AndroidRegions;
    var g := Boot(Shipped(), genuine, now);
    ShippedFits();
    BootIsSound(Shipped(), genuine, now);
    TableBudget.BootProfileFits();
    BootedSize(g, l, r, a, genuine);
    BaseFurnished(g);
    TablePoolFixed(g, run);
  }
}
