/** The hypervisor as a machine whose tables are updated in place. Each entry point
    is proved to do what its function in HvSpec says, unless the page-table pool runs
    out on the way, which parks the core. */
module Hypervisor {
  import opened Words
  import opened Stage2Spec
  import opened Stage2
  import opened VmSpec
  import opened VmTables
  import opened HvSpec
  import opened HvInv
  import opened HvFrames
  import opened HvRuns
  import opened AuditLog
  import HvBoot

  /** Stopping never gives pages back and finalizing never shrinks the tables. */
  lemma StopTables(h: Hv, id: int)
    requires Sized(h) && Exists(h, id)
    ensures Tables(HvSpec.VmStop(h, id).s2) == Tables(h.s2) && HvSpec.VmStop(h, id).s2.roots == h.s2.roots
  {
    ClearedTables(h.s2, h.vms[id - 1].root, h.vms[id - 1].mem);
  }

  lemma FinalizeTables(h: Hv, id: int)
    requires Sized(h) && Exists(h, id)
    ensures Tables(HvSpec.VmFinalize(h, id).hv.s2) >= Tables(h.s2)
  {
    var vm := h.vms[id - 1];
    BuiltGrows(h.s2, vm.root, vm.kind, vm.mem, 0);
  }

  lemma LaunchTables(h: Hv, id: int, entry: u64, now: u64)
    requires Sized(h) && Exists(h, id)
    ensures HvSpec.Launch(h, id, entry, now).hv.s2 == h.s2
  {
  }

  lemma RestartTables(h: Hv, id: int, entry: u64, now: u64)
    requires Sized(h) && Exists(h, id)
    ensures HvSpec.Restart(h, id, entry, now).hv.s2 == HvSpec.VmFinalize(HvSpec.VmStop(h, id), id).hv.s2
    ensures Tables(HvSpec.Restart(h, id, entry, now).hv.s2) >= Tables(h.s2)
  {
    hide Cleared, Built, HvSpec.Launch;
    StopTables(h, id);
    FinalizeTables(HvSpec.VmStop(h, id), id);
    var f := HvSpec.VmFinalize(HvSpec.VmStop(h, id), id);
    LaunchTables(f.hv, id, entry, now);
  }

  lemma QuarantineTables(h: Hv, id: int, now: u64)
    requires Sized(h)
    ensures Tables(HvSpec.TrustQuarantine(h, id, now).hv.s2) >= Tables(h.s2)
  {
    hide HvSpec.VmStop, HvSpec.Restart;
    if ValidId(id) && Exists(h, id) && !Blocked(h.trust.recs[id - 1].level) {
      var q := HvSpec.TrustSet(h, id, Quarantine, now);
      var q' := q.(trust := q.trust.(quarantines := Inc32(q.trust.quarantines)));
      var s := HvSpec.VmSuspend(q', id).hv;
      var bd := s.backups[id - 1];
      StopTables(HvSpec.TrustSet(s, id, Revoked, now), id);
      RestartTables(s.(backups := s.backups[id - 1 := bd.(count := if bd.count >= 3 then 0 else bd.count + 1)]), id, bd.entry, now);
    }
  }

  lemma NotifyTables(h: Hv, id: int, faultType: u32, detail: u64, now: u64)
    requires Sized(h)
    ensures Tables(HvSpec.NotifyFault(h, id, faultType, detail, now).s2) >= Tables(h.s2)
  {
    hide HvSpec.TrustQuarantine, HvSpec.Log;
    if h.ids.up && ValidId(id) {
      var b := HvSpec.RepeatStage(HvSpec.Evidence(h, id, faultType, detail, now), id, faultType, now);
      var count := Inc32(b.ids.mon[id - 1].faults);
      var g := WithMon(b, id, b.ids.mon[id - 1].(faults := count));
      QuarantineTables(HvSpec.Log(Anomaly(g), id, EvStorm, Alert, faultType, count, now), id, now);
    }
  }

  lemma {:induction false} StuckAt(h: Hv, es: seq<HvBoot.Entry>, n: nat)
    requires Sized(h) && n <= |es| && HvBoot.AddEntries(h, es[..n]).err != Ok
    ensures HvBoot.AddEntries(h, es) == HvBoot.AddEntries(h, es[..n])
  {
    if n < |es| {
      assert es[..|es| - 1][..n] == es[..n];
      StuckAt(h, es[..|es| - 1], n);
    } else {
      assert es[..n] == es;
    }
  }

  /** Looking at the first n VMs leaves what is known of the others. */
  lemma {:induction false} ScanAhead(h: Hv, n: nat, id: int, now: u64)
    requires Sized(h) && n < id <= MAX_VMS
    ensures HvSpec.PollScan(h, n, now).ids.mon[id - 1] == h.ids.mon[id - 1]
    ensures Dropped(HvSpec.PollScan(h, n, now), id) <==> Dropped(h, id)
  {
    if n > 0 { ScanAhead(h, n - 1, id, now); }
  }

  class Hypervisor {
    var vms: seq<Vm>
    var vcpus: seq<Vcpu>
    const tables: PageTables
    var trust: Trust
    var failoverUp: bool
    var backups: seq<Backup>
    var monitorUp: bool
    var mon: seq<Mon>
    const audit: Ring
    var anomalies: u32
    var alerts: u32
    var enforcements: u32
    var lastPoll: u64
    var stats: Stats

    ghost function State(): Hv
      reads this, tables, audit
    {
      Hv(vms, vcpus, tables.View(), trust, failoverUp, backups,
         Ids(monitorUp, mon, audit.history, anomalies, alerts, enforcements, lastPoll), stats)
    }

    /** Ids run from one, and every VM has its own top-level table page. */
    ghost predicate Rooted()
      reads this, tables
    {
      forall i :: 0 <= i < |vms| ==> vms[i].id == i + 1 && vms[i].root in tables.View().roots
    }

    ghost predicate Valid()
      reads this, tables, tables.pool, audit, audit.log
    {
      && tables.Valid() && !tables.parked && Tables(tables.View()) <= POOL_PAGES
      && audit.Valid() && Sized(State()) && Rooted()
    }

    /** The machine went to `g`, or the core parked because `g` needs more table pages
        than there are. */
    ghost predicate Became(g: Hv)
      reads this, tables, tables.pool, audit, audit.log
    {
      && (tables.parked <==> Tables(g.s2) > POOL_PAGES)
      && (!tables.parked ==> Valid() && State() == g)
    }

    constructor ()
      ensures Valid() && State() == HvBoot.Reset
      ensures fresh(tables) && fresh(tables.pool) && fresh(audit) && fresh(audit.log)
    {
      vms, vcpus, failoverUp, monitorUp := [], [], false, false;
      trust := Trust(false, [HvBoot.NoTrust, HvBoot.NoTrust, HvBoot.NoTrust, HvBoot.NoTrust], 0, 0);
      backups := [HvBoot.NoBackup, HvBoot.NoBackup, HvBoot.NoBackup, HvBoot.NoBackup];
      mon := [HvBoot.NoMon, HvBoot.NoMon, HvBoot.NoMon, HvBoot.NoMon];
      anomalies, alerts, enforcements, lastPoll := 0, 0, 0, 0;
      stats := Stats(false, 0, 0, 0, 0);
      tables := new PageTables();
      audit := new Ring();
    }

    // ---------- life cycle ----------

    method VmById(id: int) returns (found: Option<nat>)
      requires Valid()
      ensures found == if Exists(State(), id) then Some(id - 1) else None
    {
      assert Exists(State(), id) ==> vms[id - 1].id == id;
      var i := 0;
      while i < |vms|
        invariant 0 <= i <= |vms| && forall j :: 0 <= j < i ==> vms[j].id != id
      {
        if vms[i].id == id {
          return Some(i);
        }
        i := i + 1;
      }
      return None;
    }

    method VmCreate(kind: Kind, entry: u64, dtb: u64) returns (e: Err)
      requires Valid()
      modifies this`vms, tables, tables.pool
      ensures Became(HvBoot.VmCreate(old(State()), kind, entry, dtb).hv)
      ensures !tables.parked ==> e == HvBoot.VmCreate(old(State()), kind, entry, dtb).err
    {
      hide PageTables.Valid, Ring.Valid;
      if |vms| >= MAX_VMS {
        return NoMem;
      }
      var root := tables.Create();
      TableTree.Capacity(tables.tree);
      if tables.parked {
        return Ok;
      }
      vms := vms + [Vm(|vms| + 1, Created, kind, [], root, [], entry, dtb)];
      e := Ok;
    }

    method VmAddMem(id: int, g: Region) returns (e: Err)
      requires Valid() && Exists(State(), id)
      modifies this`vms
      ensures Valid() && |vms| == |old(vms)| && Res(State(), e) == HvBoot.VmAddMem(old(State()), id, g)
    {
      var vm := vms[id - 1];
      if g.size == 0 {
        return Inval;
      }
      if |vm.mem| >= HvBoot.MAX_MEM_REGIONS {
        return NoMem;
      }
      var mapped := tables.IsMapped(Some(vm.root), g.ipa, g.size);
      if mapped.None? {
        return Hangs;
      }
      if mapped.value {
        return Busy;
      }
      vms := vms[id - 1 := vm.(mem := vm.mem + [g])];
      e := Ok;
    }

    method StopVcpus(which: seq<nat>)
      requires forall j :: 0 <= j < |which| ==> which[j] < |vcpus|
      modifies this`vcpus
      ensures vcpus == HvSpec.StopVcpus(old(vcpus), which)
    {
      var i := 0;
      ghost var was := vcpus;
      while i < |which|
        invariant 0 <= i <= |which| && |vcpus| == |was|
        invariant vcpus == HvSpec.StopVcpus(was, which[..i])
      {
        assert which[..i + 1][..i] == which[..i];
        var v := which[i];
        vcpus := vcpus[v := vcpus[v].(state := VStopped)];
        i := i + 1;
      }
      assert which[..i] == which;
    }

    method VmStop(id: int)
      requires Valid() && Exists(State(), id)
      modifies this`vms, this`vcpus, tables`tree, tables.pool
      ensures Valid() && State() == HvSpec.VmStop(old(State()), id)
    {
      var vm := vms[id - 1];
      StopTables(State(), id);
      if vm.state == Stopped {
        return;
      }
      StopVcpus(vm.vcpus);
      ClearTables(tables, vm.root, vm.mem);
      vms := vms[id - 1 := vm.(state := Stopped)];
    }

    /** vCPUs come from a pool that is never given back. With all of them the VM is ready. */
    method TakeVcpus(id: int) returns (e: Err)
      requires Valid() && Exists(State(), id)
      modifies this`vms, this`vcpus
      ensures var vm := old(vms)[id - 1];
              var n := Taken(old(State()), vm.kind);
              && vms == old(vms)[id - 1 := vm.(vcpus := NextVcpus(|old(vcpus)|, n), state := if e == Ok then Ready else vm.state)]
              && vcpus == old(vcpus) + FreshVcpus(vm, n)
              && e == if n < VcpusOf(vm.kind) then NoMem else Ok
    {
      var vm := vms[id - 1];
      var nvc := VcpusOf(vm.kind);
      vms := vms[id - 1 := vm.(vcpus := [])];
      ghost var base := |vcpus|;
      assert NextVcpus(base, 0) == [] && FreshVcpus(vm, 0) == [];
      var v := 0;
      while v < nvc
        invariant 0 <= v <= nvc && base + v <= VCPU_POOL
        invariant vcpus == old(vcpus) + FreshVcpus(vm, v)
        invariant vms == old(vms)[id - 1 := vm.(vcpus := NextVcpus(base, v))]
      {
        if |vcpus| >= VCPU_POOL {
          return NoMem;
        }
        assert NextVcpus(base, v) + [|vcpus|] == NextVcpus(base, v + 1);
        vms := vms[id - 1 := vm.(vcpus := vms[id - 1].vcpus + [|vcpus|])];
        vcpus := vcpus + [Vcpu(vm.id, v, VReady, vm.entry, vm.dtb)];
        v := v + 1;
      }
      vms := vms[id - 1 := vms[id - 1].(state := Ready)];
      e := Ok;
    }

    method BuildVm(id: int) returns (e: Err)
      requires Valid() && Exists(State(), id)
      modifies tables, tables.pool
      ensures var vm := vms[id - 1];
              && Became(old(State()).(s2 := Built(old(State().s2), vm.root, vm.kind, vm.mem)))
              && (!tables.parked ==> e == if Good(vm.mem) < |vm.mem| then Inval else Ok)
    {
      hide Built, Good, PageTables.Valid, Ring.Valid;
      var vm := vms[id - 1];
      e := BuildTables(tables, vm.root, vm.kind, vm.mem);
    }

    method VmFinalize(id: int) returns (e: Err)
      requires Valid() && Exists(State(), id)
      modifies this`vms, this`vcpus, tables, tables.pool
      ensures Became(HvSpec.VmFinalize(old(State()), id).hv)
      ensures !tables.parked ==> e == HvSpec.VmFinalize(old(State()), id).err
    {
      hide Built, Good, PageTables.Valid, Ring.Valid;
      e := BuildVm(id);
      if tables.parked || e != Ok {
        return;
      }
      e := TakeVcpus(id);
    }

    method VmStart(id: int) returns (e: Err)
      requires Valid() && Exists(State(), id)
      modifies this`vms
      ensures Valid() && Res(State(), e) == HvSpec.VmStart(old(State()), id)
    {
      var vm := vms[id - 1];
      if vm.state != Ready {
        return Inval;
      }
      vms := vms[id - 1 := vm.(state := Running)];
      e := Ok;
    }

    method VmSuspend(id: int) returns (e: Err)
      requires Valid() && Exists(State(), id)
      modifies this`vms
      ensures Valid() && Res(State(), e) == HvSpec.VmSuspend(old(State()), id)
    {
      var vm := vms[id - 1];
      if vm.state != Running {
        return Inval;
      }
      vms := vms[id - 1 := vm.(state := Suspended)];
      e := Ok;
    }

    method VmResume(id: int) returns (e: Err)
      requires Valid() && Exists(State(), id)
      modifies this`vms
      ensures Valid() && Res(State(), e) == HvSpec.VmResume(old(State()), id)
    {
      var vm := vms[id - 1];
      if vm.state != Suspended {
        return Inval;
      }
      vms := vms[id - 1 := vm.(state := Running)];
      e := Ok;
    }

    // ---------- trust engine and failover ----------

    method TrustGet(id: int) returns (level: Level)
      requires Valid()
      ensures level == HvSpec.TrustGet(State(), id)
    {
      level := if ValidId(id) && trust.up then trust.recs[id - 1].level else Unknown;
    }

    method TrustSet(id: int, level: Level, now: u64) returns (e: Err)
      requires Valid()
      modifies this`trust
      ensures Valid() && State() == HvSpec.TrustSet(old(State()), id, level, now)
      ensures e == if ValidId(id) && trust.up then Ok else Inval
    {
      if !ValidId(id) || !trust.up {
        return Inval;
      }
      var rec := trust.recs[id - 1];
      if rec.level != level {
        trust := trust.(recs := trust.recs[id - 1 := rec.(level := level, changedAt := now)]);
      }
      e := Ok;
    }

    method TrustRevoke(id: int, now: u64) returns (e: Err)
      requires Valid()
      modifies this`vms, this`vcpus, this`trust, tables`tree, tables.pool
      ensures Valid() && Res(State(), e) == HvSpec.TrustRevoke(old(State()), id, now)
    {
      if !ValidId(id) {
        return Inval;
      }
      var vm := VmById(id);
      if vm.None? {
        return NotFound;
      }
      var done := TrustSet(id, Revoked, now);
      VmStop(id);
      e := Ok;
    }

    method Launch(id: int, entry: u64, now: u64) returns (e: Err)
      requires Valid() && Exists(State(), id)
      modifies this`vms, this`vcpus, this`trust
      ensures Valid() && Res(State(), e) == HvSpec.Launch(old(State()), id, entry, now)
    {
      hide PageTables.Valid, Ring.Valid;
      var vm := vms[id - 1];
      if |vm.vcpus| > 0 {
        var i := vm.vcpus[0];
        vcpus := vcpus[i := vcpus[i].(elr := entry, x0 := 0)];
      }
      e := VmStart(id);
      if e == Ok {
        var done := TrustSet(id, Degraded, now);
      }
    }

    /** Stop, rebuild, point vCPU 0 at the backup, start. */
    method Restart(id: int, entry: u64, now: u64) returns (e: Err)
      requires Valid() && Exists(State(), id)
      modifies this`vms, this`vcpus, this`trust, tables, tables.pool
      ensures Became(HvSpec.Restart(old(State()), id, entry, now).hv)
      ensures !tables.parked ==> e == HvSpec.Restart(old(State()), id, entry, now).err
    {
      hide Cleared, Built, HvSpec.Launch;
      RestartTables(State(), id, entry, now);
      VmStop(id);
      e := VmFinalize(id);
      if tables.parked || e != Ok {
        return;
      }
      e := Launch(id, entry, now);
    }

    method DoFailover(id: int, now: u64) returns (e: Err)
      requires Valid() && ValidId(id)
      modifies this`vms, this`vcpus, this`trust, this`backups, tables, tables.pool
      ensures Became(HvSpec.DoFailover(old(State()), id, now).hv)
      ensures !tables.parked ==> e == HvSpec.DoFailover(old(State()), id, now).err
    {
      hide HvSpec.Restart, HvSpec.VmStop, HvSpec.TrustSet;
      var bd := backups[id - 1];
      var vm := VmById(id);
      if vm.None? {
        return NotFound;
      }
      if bd.count >= FAILOVER_MAX_ATTEMPTS {
        var ignored := TrustRevoke(id, now);
        return Busy;
      }
      backups := backups[id - 1 := bd.(count := bd.count + 1)];
      e := Restart(id, bd.entry, now);
    }

    method FailoverOnQuarantine(id: int, now: u64) returns (e: Err)
      requires Valid()
      modifies this`vms, this`vcpus, this`trust, this`backups, tables, tables.pool
      ensures Became(HvSpec.FailoverOnQuarantine(old(State()), id, now).hv)
      ensures !tables.parked ==> e == HvSpec.FailoverOnQuarantine(old(State()), id, now).err
    {
      hide HvSpec.DoFailover;
      if !ValidId(id) {
        return Inval;
      }
      if !failoverUp {
        return NotFound;
      }
      var bd := backups[id - 1];
      if !bd.registered || !bd.critical {
        return NotFound;
      }
      e := DoFailover(id, now);
    }

    method FailoverTrigger(id: int, now: u64) returns (e: Err)
      requires Valid()
      modifies this`vms, this`vcpus, this`trust, this`backups, tables, tables.pool
      ensures Became(HvSpec.FailoverTrigger(old(State()), id, now).hv)
      ensures !tables.parked ==> e == HvSpec.FailoverTrigger(old(State()), id, now).err
    {
      hide HvSpec.DoFailover;
      if !ValidId(id) || !failoverUp {
        return Inval;
      }
      if !backups[id - 1].registered {
        return NotFound;
      }
      e := DoFailover(id, now);
    }

    method FailoverRegister(id: int, pa: u64, live: u64, size: u64, entry: u64) returns (e: Err)
      requires Valid()
      modifies this`backups
      ensures Valid() && Res(State(), e) == HvSpec.FailoverRegister(old(State()), id, pa, live, size, entry)
    {
      if !ValidId(id) || !failoverUp || pa == 0 || size == 0 {
        return Inval;
      }
      var vm := VmById(id);
      if vm.None? {
        return NotFound;
      }
      backups := backups[id - 1 := Backup(true, pa, live, size, entry, true, 0)];
      e := Ok;
    }

    method TrustQuarantine(id: int, now: u64) returns (e: Err)
      requires Valid()
      modifies this`vms, this`vcpus, this`trust, this`backups, tables, tables.pool
      ensures Became(HvSpec.TrustQuarantine(old(State()), id, now).hv)
      ensures !tables.parked ==> e == HvSpec.TrustQuarantine(old(State()), id, now).err
    {
      hide HvSpec.FailoverOnQuarantine;
      if !ValidId(id) {
        return Inval;
      }
      var vm := VmById(id);
      if vm.None? {
        return NotFound;
      }
      if Blocked(trust.recs[id - 1].level) {
        return Ok;
      }
      var done := TrustSet(id, Quarantine, now);
      trust := trust.(quarantines := Inc32(trust.quarantines));
      var suspended := VmSuspend(id);
      var ignored := FailoverOnQuarantine(id, now);
      e := Ok;
    }

    method TrustRestore(id: int, now: u64) returns (e: Err)
      requires Valid()
      modifies this`vms, this`trust
      ensures Valid() && Res(State(), e) == HvSpec.TrustRestore(old(State()), id, now)
    {
      if !ValidId(id) {
        return Inval;
      }
      var vm := VmById(id);
      if vm.None? {
        return NotFound;
      }
      var rec := trust.recs[id - 1];
      if rec.level != Quarantine {
        return Inval;
      }
      trust := trust.(recs := trust.recs[id - 1 := rec.(faults := 0)]);
      var done := TrustSet(id, Degraded, now);
      var ignored := VmResume(id);
      e := Ok;
    }

    method ReportFault(id: int, faultType: u32, detail: u64, now: u64) returns (e: Err)
      requires Valid()
      modifies this`vms, this`vcpus, this`trust, this`backups, tables, tables.pool
      ensures Became(HvSpec.ReportFault(old(State()), id, faultType, detail, now).hv)
      ensures !tables.parked ==> e == HvSpec.ReportFault(old(State()), id, faultType, detail, now).err
    {
      hide HvSpec.TrustQuarantine;
      if !ValidId(id) || !trust.up {
        return Inval;
      }
      var rec := trust.recs[id - 1];
      if rec.level == Revoked {
        return Ok;
      }
      rec := rec.(faults := Inc32(rec.faults), lastType := faultType, lastDetail := detail, lastFaultAt := now);
      trust := trust.(recs := trust.recs[id - 1 := rec], total := Inc32(trust.total));
      e := Ok;
      if rec.faults >= THRESH_QUARANTINE {
        if !Blocked(rec.level) {
          var ignored := TrustQuarantine(id, now);
        }
      } else if rec.faults >= THRESH_DEGRADED && rec.level == Trusted {
        var done := TrustSet(id, Degraded, now);
      }
    }

    method PromoteOne(id: int, now: u64) returns (promoted: bool)
      requires Valid() && ValidId(id)
      modifies this`trust
      ensures Valid() && State() == HvSpec.PromoteOne(old(State()), id, now) && trust.up == old(trust).up
      ensures promoted <==> Promotable(old(trust).recs[id - 1], now)
      ensures forall j :: 0 <= j < MAX_VMS && j != id - 1 ==> trust.recs[j] == old(trust).recs[j]
    {
      var rec := trust.recs[id - 1];
      promoted := Promotable(rec, now);
      if promoted {
        trust := trust.(recs := trust.recs[id - 1 := rec.(faults := 0)]);
        var done := TrustSet(id, Trusted, now);
      }
    }

    method PromoteTick(now: u64) returns (promoted: nat)
      requires Valid()
      modifies this`trust
      ensures Valid() && State() == HvSpec.Promote(old(State()), MAX_VMS, now)
      ensures promoted == if old(trust).up then Promotions(old(trust).recs, MAX_VMS, now) else 0
    {
      hide HvSpec.PromoteOne, Promotable, PageTables.Valid, Ring.Valid;
      promoted := 0;
      if !trust.up {
        return;
      }
      ghost var h := State();
      var i := 0;
      while i < MAX_VMS
        invariant 0 <= i <= MAX_VMS && Valid() && trust.up
        invariant State() == HvSpec.Promote(h, i, now)
        invariant promoted == Promotions(h.trust.recs, i, now)
        invariant forall j :: i <= j < MAX_VMS ==> trust.recs[j] == h.trust.recs[j]
      {
        var one := PromoteOne(i + 1, now);
        if one {
          promoted := promoted + 1;
        }
        i := i + 1;
      }
    }

    // ---------- intrusion detection ----------

    method Log(vm: int, kind: EventKind, sev: Severity, faultType: u32, detail: u64, now: u64)
      requires Valid()
      modifies this`alerts, audit, audit.log
      ensures Valid() && State() == HvSpec.Log(old(State()), vm, kind, sev, faultType, detail, now)
    {
      var level := Unknown;
      if vm != 0 {
        level := TrustGet(vm);
      }
      audit.Append(Record(now, vm, kind, sev, faultType, detail, level));
      if sev == Alert {
        alerts := Inc32(alerts);
      }
    }

    method Evidence(id: int, faultType: u32, detail: u64, now: u64)
      requires Valid() && ValidId(id)
      modifies this`mon, this`alerts, audit, audit.log
      ensures Valid() && State() == HvSpec.Evidence(old(State()), id, faultType, detail, now)
    {
      Log(id, EvFault, Warn, faultType, detail, now);
      var m := mon[id - 1];
      if m.first == 0 {
        mon := mon[id - 1 := m.(first := now)];
      }
    }

    method RepeatStage(id: int, faultType: u32, now: u64)
      requires Valid() && ValidId(id)
      modifies this`mon, this`alerts, this`anomalies, audit, audit.log
      ensures Valid() && State() == HvSpec.RepeatStage(old(State()), id, faultType, now)
    {
      var m := mon[id - 1];
      if faultType != m.lastType {
        mon := mon[id - 1 := m.(run := 1, lastType := faultType)];
        return;
      }
      var run := Inc32(m.run);
      mon := mon[id - 1 := m.(run := run)];
      if run == REPEAT_COUNT {
        anomalies := Inc32(anomalies);
        Log(id, EvRepeat, Alert, faultType, run, now);
      }
    }

    method Enforce(id: int, faultType: u32, count: u32, now: u64)
      requires Valid() && ValidId(id)
      modifies this, tables, tables.pool, audit, audit.log
      ensures Became(HvSpec.Enforce(old(State()), id, faultType, count, now))
    {
      hide HvSpec.TrustQuarantine;
      var level := TrustGet(id);
      if Blocked(level) {
        return;
      }
      var ignored := TrustQuarantine(id, now);
      if tables.parked {
        return;
      }
      enforcements := Inc32(enforcements);
      Log(id, EvEnforce, Alert, faultType, count, now);
    }

    method StormStage(id: int, faultType: u32, now: u64)
      requires Valid() && ValidId(id)
      modifies this, tables, tables.pool, audit, audit.log
      ensures Became(HvSpec.StormStage(old(State()), id, faultType, now))
    {
      hide HvSpec.Enforce;
      var m := mon[id - 1];
      if WindowExpired(m, now) {
        mon := mon[id - 1 := m.(start := now, faults := 1)];
        return;
      }
      var count := Inc32(m.faults);
      mon := mon[id - 1 := m.(faults := count)];
      if count == STORM_FAULTS + 1 {
        anomalies := Inc32(anomalies);
        Log(id, EvStorm, Alert, faultType, count, now);
        Enforce(id, faultType, count, now);
      }
    }

    method RapidStage(id: int, faultType: u32, now: u64)
      requires Valid() && ValidId(id)
      modifies this`mon, this`alerts, this`anomalies, audit, audit.log
      ensures Valid() && State() == HvSpec.RapidStage(old(State()), id, faultType, now)
    {
      hide PageTables.Valid, Ring.Valid;
      var level := TrustGet(id);
      var m := mon[id - 1];
      if Blocked(level) && m.first != 0 && Sub64(now, m.first) < RAPID_WINDOW {
        anomalies := Inc32(anomalies);
        Log(id, EvRapid, Alert, faultType, Sub64(now, m.first), now);
        mon := mon[id - 1 := m.(first := 0)];
      }
    }

    method NotifyFault(id: int, faultType: u32, detail: u64, now: u64)
      requires Valid()
      modifies this, tables, tables.pool, audit, audit.log
      ensures Became(HvSpec.NotifyFault(old(State()), id, faultType, detail, now))
    {
      hide HvSpec.Evidence, HvSpec.RepeatStage, HvSpec.StormStage, HvSpec.RapidStage;
      if !monitorUp || !ValidId(id) {
        return;
      }
      Evidence(id, faultType, detail, now);
      RepeatStage(id, faultType, now);
      StormStage(id, faultType, now);
      if tables.parked {
        return;
      }
      RapidStage(id, faultType, now);
    }

    method PollScan(now: u64) returns (found: nat)
      requires Valid()
      modifies this`mon, this`alerts, this`anomalies, audit, audit.log
      ensures Valid() && State() == HvSpec.PollScan(old(State()), MAX_VMS, now) && found == Drops(old(State()), MAX_VMS)
    {
      hide HvSpec.PollOne, Dropped, PageTables.Valid, Ring.Valid;
      ghost var h := State();
      found := 0;
      var i := 0;
      while i < MAX_VMS
        invariant 0 <= i <= MAX_VMS && Valid()
        invariant State() == HvSpec.PollScan(h, i, now) && found == Drops(h, i)
      {
        ScanAhead(h, i, i + 1, now);
        var drop := PollOne(i + 1, now);
        if drop {
          found := found + 1;
        }
        i := i + 1;
      }
    }

    method NoteDrop(id: int, prev: Level, cur: Level, now: u64)
      requires Valid() && ValidId(id)
      modifies this`alerts, this`anomalies, audit, audit.log
      ensures Valid() && State() == HvSpec.Log(Anomaly(old(State())), id, EvTrustDrop, Alert, 0, 256 * prev.Rank() + cur.Rank(), now)
    {
      anomalies := Inc32(anomalies);
      Log(id, EvTrustDrop, Alert, 0, 256 * prev.Rank() + cur.Rank(), now);
    }

    method PollOne(id: int, now: u64) returns (drop: bool)
      requires Valid() && ValidId(id)
      modifies this`mon, this`alerts, this`anomalies, audit, audit.log
      ensures Valid() && State() == HvSpec.PollOne(old(State()), id, now) && (drop <==> Dropped(old(State()), id))
    {
      hide PageTables.Valid, Ring.Valid;
      var cur := TrustGet(id);
      var prev := mon[id - 1].seen;
      drop := cur.Rank() > prev.Rank() && prev != Unknown;
      if drop {
        NoteDrop(id, prev, cur, now);
      }
      mon := mon[id - 1 := mon[id - 1].(seen := cur)];
    }

    method Poll(now: u64) returns (found: nat)
      requires Valid()
      modifies this, audit, audit.log
      ensures Valid() && State() == HvSpec.Poll(old(State()), now)
      ensures found == if old(monitorUp) then Drops(old(State()), MAX_VMS) else 0
    {
      hide HvSpec.PollScan, HvSpec.Promote, Drops, Promotions;
      found := 0;
      if !monitorUp {
        return;
      }
      found := PollScan(now);
      var promoted := PromoteTick(now);
      Log(0, EvPoll, Info, 0, trust.total, now);
      lastPoll := now;
    }

    // ---------- fault detection ----------

    method Feed(id: int, faultType: u32, detail: u64, now: u64)
      requires Valid()
      modifies this, tables, tables.pool, audit, audit.log
      ensures Became(HvSpec.Feed(old(State()), id, faultType, detail, now))
    {
      hide HvSpec.ReportFault, HvSpec.NotifyFault;
      if !ValidId(id) {
        return;
      }
      ghost var h := State();
      NotifyTables(HvSpec.ReportFault(h, id, faultType, detail, now).hv, id, faultType, detail, now);
      var ignored := ReportFault(id, faultType, detail, now);
      if tables.parked {
        return;
      }
      NotifyFault(id, faultType, detail, now);
    }

    method MemFault(id: int, ipa: u64, isWrite: bool, now: u64)
      requires Valid()
      modifies this, tables, tables.pool, audit, audit.log
      ensures Became(HvSpec.MemFault(old(State()), id, ipa, isWrite, now))
    {
      hide HvSpec.Feed;
      if !stats.up {
        return;
      }
      stats := stats.(mem := Inc32(stats.mem), total := Inc32(stats.total));
      var detail := if isWrite && ipa < 0x8000_0000_0000_0000 then ipa + 0x8000_0000_0000_0000 else ipa;
      Feed(id, FAULT_MEM, detail, now);
    }

    method DmaViolation(id: int, pa: u64, now: u64)
      requires Valid()
      modifies this, tables, tables.pool, audit, audit.log
      ensures Became(HvSpec.DmaViolation(old(State()), id, pa, now))
    {
      hide HvSpec.Feed;
      if !stats.up {
        return;
      }
      stats := stats.(dma := Inc32(stats.dma), total := Inc32(stats.total));
      Feed(id, FAULT_DMA, pa, now);
    }

    method IrqUnrouted()
      requires Valid()
      modifies this`stats
      ensures Valid() && State() == HvSpec.IrqUnrouted(old(State()))
    {
      if stats.up {
        stats := stats.(irq := Inc32(stats.irq), total := Inc32(stats.total));
      }
    }

    // ---------- events and runs ----------

    method VmCall(e: Event)
      requires Valid() && (e.EStop? || e.ESuspend? || e.EResume?)
      modifies this, tables, tables.pool
      ensures Became(Step(old(State()), e, 0))
    {
      var vm := VmById(e.id);
      if vm.None? {
        return;
      }
      if e.EStop? {
        VmStop(e.id);
      } else if e.ESuspend? {
        var ignored := VmSuspend(e.id);
      } else {
        var ignored := VmResume(e.id);
      }
    }

    method Operate(e: Event, now: u64)
      requires Valid() && (e.EQuarantine? || e.ERevoke? || e.ERestore? || e.ETrigger? || e.ERegister?)
      modifies this, tables, tables.pool
      ensures Became(Step(old(State()), e, now))
    {
      hide HvSpec.TrustQuarantine, HvSpec.TrustRevoke, HvSpec.TrustRestore, HvSpec.FailoverTrigger, HvSpec.FailoverRegister;
      var ignored;
      match e {
        case EQuarantine(id) => ignored := TrustQuarantine(id, now);
        case ERevoke(id) => ignored := TrustRevoke(id, now);
        case ERestore(id) => ignored := TrustRestore(id, now);
        case ETrigger(id) => ignored := FailoverTrigger(id, now);
        case ERegister(id, pa, live, size, entry) => ignored := FailoverRegister(id, pa, live, size, entry);
      }
    }

    /** Any event. While every VM owns the tables its regions need, none parks the core. */
    method Handle(e: Event, now: u64)
      requires Valid()
      modifies this, tables, tables.pool, audit, audit.log
      ensures Became(Step(old(State()), e, now))
      ensures old(trust).up && Furnished(old(State())) ==> !tables.parked
      ensures !tables.parked && Sound(old(State())) && Admissible(old(State()), e) ==> Sound(State())
    {
      hide HvSpec.MemFault, HvSpec.DmaViolation, HvSpec.Poll, HvSpec.IrqUnrouted, Furnished, Sound, Admissible;
      ghost var h := State();
      if h.trust.up { StepTame(h, e, now); }
      if Sound(h) && Admissible(h, e) { StepKeeps(h, e, now); }
      match e {
        case EMemFault(id, ipa, w) => MemFault(id, ipa, w, now);
        case EDma(id, pa) => DmaViolation(id, pa, now);
        case EIrq => IrqUnrouted();
        case EPoll => var found := Poll(now);
        case EStop(_) => VmCall(e);
        case ESuspend(_) => VmCall(e);
        case EResume(_) => VmCall(e);
        case _ => Operate(e, now);
      }
    }

    /** A whole run, without ever parking. */
    method Serve(run: Run)
      requires Valid() && trust.up && Furnished(State())
      modifies this, tables, tables.pool, audit, audit.log
      ensures Valid() && State() == After(old(State()), run)
      ensures Sound(old(State())) && AdmissibleRun(old(State()), run) ==> Sound(State())
    {
      hide Step, Furnished, Sound, AdmissibleRun;
      ghost var h := State();
      var i := 0;
      while i < |run|
        invariant 0 <= i <= |run| && Valid() && State() == After(h, run[..i])
      {
        RunTame(h, run[..i]);
        assert run[..i + 1][..i] == run[..i];
        Handle(run[i].0, run[i].1);
        i := i + 1;
      }
      assert run[..i] == run;
      if Sound(h) && AdmissibleRun(h, run) { RunKeeps(h, run); }
    }

    // ---------- boot ----------

    method AddEntries(es: seq<HvBoot.Entry>) returns (e: Err)
      requires Valid()
      modifies this`vms
      ensures Valid() && |vms| == |old(vms)| && Res(State(), e) == HvBoot.AddEntries(old(State()), es)
    {
      hide HvBoot.VmAddMem;
      e := Ok;
      ghost var h := State();
      var i := 0;
      while i < |es|
        invariant 0 <= i <= |es| && Valid() && |vms| == |h.vms|
        invariant e == Ok && Res(State(), e) == HvBoot.AddEntries(h, es[..i])
      {
        assert es[..i + 1][..i] == es[..i];
        var vm := VmById(es[i].vm);
        if vm.Some? {
          e := VmAddMem(es[i].vm, es[i].region);
        }
        i := i + 1;
        if e != Ok {
          StuckAt(h, es, i);
          return;
        }
      }
      assert es[..i] == es;
    }

    method TrustInit(genuine: set<int>)
      requires Valid()
      modifies this`trust
      ensures Valid() && State() == HvBoot.TrustInit(old(State()), genuine)
    {
      var none := HvBoot.NoTrust;
      var recs := [none, none, none, none];
      var i := 0;
      while i < |vms|
        invariant 0 <= i <= |vms| && |recs| == MAX_VMS
        invariant forall j :: 0 <= j < MAX_VMS ==>
                    recs[j] == none.(level := if j >= i then Unknown else if j + 1 in genuine then Trusted else Quarantine)
      {
        recs := recs[i := recs[i].(level := if vms[i].id in genuine then Trusted else Quarantine)];
        i := i + 1;
      }
      trust := Trust(true, recs, 0, 0);
    }

    method WatchAll(now: u64)
      requires Valid()
      modifies this`mon
      ensures Valid() && mon == HvBoot.MonitorInit(old(State()), now).ids.mon
    {
      hide PageTables.Valid, Ring.Valid;
      ghost var h := State();
      var i := 0;
      while i < MAX_VMS
        invariant 0 <= i <= MAX_VMS && Valid()
        invariant forall j :: 0 <= j < i ==> mon[j] == Mon(now, 0, 0, 0, 0, HvSpec.TrustGet(h, j + 1))
      {
        var level := TrustGet(i + 1);
        mon := mon[i := Mon(now, 0, 0, 0, 0, level)];
        i := i + 1;
      }
    }

    method ClearMonitor(now: u64)
      requires Valid()
      modifies this`anomalies, this`alerts, this`enforcements, this`lastPoll, this`monitorUp, audit, audit.log
      ensures Valid() && State() == old(State()).(ids := Ids(true, mon, [], 0, 0, 0, now))
    {
      hide PageTables.Valid;
      audit.Clear();
      anomalies, alerts, enforcements, lastPoll, monitorUp := 0, 0, 0, now, true;
    }

    method MonitorInit(now: u64)
      requires Valid()
      modifies this, audit, audit.log
      ensures Valid() && State() == HvBoot.MonitorInit(old(State()), now)
    {
      hide PageTables.Valid, Ring.Valid, HvSpec.TrustGet;
      WatchAll(now);
      ClearMonitor(now);
    }

    method FailoverInit()
      requires Valid()
      modifies this`failoverUp, this`backups
      ensures Valid() && State() == old(State()).(failoverUp := true, backups := backups)
      ensures backups == [HvBoot.NoBackup, HvBoot.NoBackup, HvBoot.NoBackup, HvBoot.NoBackup]
    {
      var none := HvBoot.NoBackup;
      failoverUp, backups := true, [none, none, none, none];
    }

    method SwitchOn(genuine: set<int>, now: u64)
      requires Valid()
      modifies this, audit, audit.log
      ensures Valid() && State() == HvBoot.SwitchOn(old(State()), genuine, now)
    {
      hide HvBoot.TrustInit, HvBoot.MonitorInit, HvSpec.FailoverRegister, PageTables.Valid, Ring.Valid;
      TrustInit(genuine);
      stats := Stats(true, 0, 0, 0, 0);
      MonitorInit(now);
      FailoverInit();
      var rtos := HvBoot.RtosBackup;
      var e := FailoverRegister(2, rtos.pa, rtos.live, rtos.size, rtos.entry);
    }

    method LaunchOne(id: int) returns (e: Err)
      requires Valid() && Exists(State(), id)
      modifies this, tables, tables.pool
      ensures Became(HvBoot.LaunchOne(old(State()), id).hv)
      ensures !tables.parked ==> |vms| == |old(vms)| && e == HvBoot.LaunchOne(old(State()), id).err
    {
      hide Built;
      e := VmFinalize(id);
      if tables.parked || e != Ok {
        return;
      }
      e := VmStart(id);
    }

    /** Finalize and start all VMs, up to the first error. */
    method LaunchAll() returns (e: Err)
      requires Valid()
      modifies this, tables, tables.pool
      ensures Became(HvBoot.LaunchFirst(old(State()), |old(vms)|).hv)
      ensures !tables.parked ==> e == HvBoot.LaunchFirst(old(State()), |old(vms)|).err
    {
      hide HvBoot.LaunchOne;
      ghost var h := State();
      e := Ok;
      var i := 0;
      while i < |vms|
        invariant 0 <= i <= |vms| == |h.vms| && Valid() && e == Ok
        invariant Res(State(), e) == HvBoot.LaunchFirst(h, i)
      {
        e := LaunchOne(i + 1);
        i := i + 1;
        LaunchStuck(h, i, |h.vms|);
        if tables.parked || e != Ok {
          return;
        }
      }
    }
  }

  lemma LaunchOneTables(h: Hv, id: int)
    requires Sized(h) && Exists(h, id)
    ensures Tables(HvBoot.LaunchOne(h, id).hv.s2) >= Tables(h.s2)
  {
    hide Built;
    FinalizeTables(h, id);
  }

  /** After an error nothing more happens, and tables never shrink. */
  lemma {:induction false} LaunchStuck(h: Hv, m: nat, n: nat)
    requires Sized(h) && m <= n <= |h.vms|
    ensures HvBoot.LaunchFirst(h, m).err != Ok ==> HvBoot.LaunchFirst(h, n) == HvBoot.LaunchFirst(h, m)
    ensures Tables(HvBoot.LaunchFirst(h, n).hv.s2) >= Tables(HvBoot.LaunchFirst(h, m).hv.s2)
  {
    hide HvBoot.LaunchOne;
    if m < n {
      LaunchStuck(h, m, n - 1);
      LaunchOneTables(HvBoot.LaunchFirst(h, n - 1).hv, n);
    }
  }

  method CreateThree(hv: Hypervisor)
    requires hv.Valid() && hv.State() == HvBoot.Reset
    modifies hv, hv.tables, hv.tables.pool
    ensures hv.Valid() && hv.State() == HvBoot.CreateThree()
  {
    HvBoot.CreatedThree();
    var ignored := hv.VmCreate(Linux, 0x20_0000, 0x400_0000);
    ignored := hv.VmCreate(Rtos, 0x8000, 0);
    ignored := hv.VmCreate(Android, 0x20_0000, 0x200_0000);
  }

  method InitPlatform(hv: Hypervisor, es: seq<HvBoot.Entry>) returns (e: Err)
    requires hv.Valid() && hv.State() == HvBoot.Reset
    modifies hv, hv.tables, hv.tables.pool
    ensures hv.Became(HvBoot.PlatformInit(es).hv)
    ensures !hv.tables.parked ==> e == HvBoot.PlatformInit(es).err
  {
    hide HvBoot.CreateThree, HvBoot.AddEntries, HvBoot.LaunchFirst, HvBoot.Reset;
    CreateThree(hv);
    e := hv.AddEntries(es);
    if e != Ok {
      return;
    }
    e := hv.LaunchAll();
  }

  /** Boot from reset. It parks exactly when the profile needs more table pages than
      there are, stops with the first error, and otherwise ends in `Boot`. */
  method BringUp(es: seq<HvBoot.Entry>, genuine: set<int>, now: u64) returns (hv: Hypervisor, e: Err)
    ensures hv.tables.parked <==> Tables(HvBoot.PlatformInit(es).hv.s2) > POOL_PAGES
    ensures !hv.tables.parked ==> hv.Valid() && e == HvBoot.PlatformInit(es).err
    ensures !hv.tables.parked && e == Ok ==> hv.State() == HvBoot.Boot(es, genuine, now)
    ensures !hv.tables.parked && e == Ok ==> Base(hv.State()) && (Sound(hv.State()) <==> 2 in genuine)
  {
    hide HvBoot.PlatformInit, HvBoot.SwitchOn, HvBoot.Booted, HvBoot.AllFit, Base, Sound;
    hv := new Hypervisor();
    e := InitPlatform(hv, es);
    if hv.tables.parked || e != Ok {
      return;
    }
    hv.SwitchOn(genuine, now);
    HvBoot.PlatformExact(es);
    HvBoot.BootIsSound(es, genuine, now);
  }
}
