/** The hypervisor's run-time state and what each entry point does to it: the VM
    life cycle, the trust engine, failover, fault detection and the intrusion
    detection system. One entry point reads the clock once, as `now`. */
module HvSpec {
  import opened Words
  import opened Stage2Spec
  import opened VmSpec

  const VCPU_POOL: nat := 16

  // ---------- VMs and vCPUs ----------

  datatype VmState = Created | Ready | Running | Suspended | Stopped

  datatype VcpuState = VIdle | VReady | VRunning | VBlocked | VStopped

  datatype Vcpu = Vcpu(vm: int, id: int, state: VcpuState, elr: u64, x0: u64)

  /** `vcpus` are indices into the vCPU pool, `root` names the top-level table. */
  datatype Vm = Vm(id: int, state: VmState, kind: Kind, mem: seq<Region>, root: int,
                   vcpus: seq<nat>, entry: u64, dtb: u64)

  function VcpusOf(kind: Kind): nat {
    if kind == Android then 2 else 1
  }

  // ---------- trust, failover, monitoring ----------

  datatype Level = Unknown | Trusted | Degraded | Quarantine | Revoked {
    function Rank(): nat {
      match this
      case Unknown => 0
      case Trusted => 1
      case Degraded => 2
      case Quarantine => 3
      case Revoked => 4
    }
  }

  datatype TrustRec = TrustRec(level: Level, faults: u32, lastType: u32, lastDetail: u64,
                               changedAt: u64, lastFaultAt: u64)

  datatype Trust = Trust(up: bool, recs: seq<TrustRec>, total: u32, quarantines: u32)

  datatype Backup = Backup(registered: bool, pa: u64, live: u64, size: u64, entry: u64,
                           critical: bool, count: u32)

  datatype EventKind = EvFault | EvStorm | EvRapid | EvRepeat | EvTrustDrop | EvPoll | EvEnforce

  datatype Severity = Info | Warn | Alert

  datatype Record = Record(time: u64, vm: int, kind: EventKind, sev: Severity, faultType: u32,
                           detail: u64, trustAt: Level)

  datatype Mon = Mon(start: u64, faults: u32, first: u64, lastType: u32, run: u32, seen: Level)

  /** `log` is every record ever written; the ring keeps the last of them. */
  datatype Ids = Ids(up: bool, mon: seq<Mon>, log: seq<Record>, anomalies: u32, alerts: u32,
                     enforcements: u32, lastPoll: u64)

  datatype Stats = Stats(up: bool, mem: u32, dma: u32, irq: u32, total: u32)

  datatype Hv = Hv(vms: seq<Vm>, vcpus: seq<Vcpu>, s2: S2, trust: Trust, failoverUp: bool,
                   backups: seq<Backup>, ids: Ids, stats: Stats)

  datatype Res = Res(hv: Hv, err: Err)

  predicate Sized(h: Hv) {
    && |h.vms| <= MAX_VMS && |h.vcpus| <= VCPU_POOL
    && |h.trust.recs| == |h.backups| == |h.ids.mon| == MAX_VMS
    && forall i, j :: 0 <= i < |h.vms| && 0 <= j < |h.vms[i].vcpus| ==> h.vms[i].vcpus[j] < |h.vcpus|
  }

  predicate ValidId(id: int) {
    1 <= id <= MAX_VMS
  }

  predicate Exists(h: Hv, id: int) {
    1 <= id <= |h.vms|
  }

  function WithVm(h: Hv, id: int, vm: Vm): Hv
    requires Exists(h, id)
  {
    h.(vms := h.vms[id - 1 := vm])
  }

  // ---------- life cycle ----------

  function StopVcpus(vcpus: seq<Vcpu>, which: seq<nat>): (r: seq<Vcpu>)
    requires forall j :: 0 <= j < |which| ==> which[j] < |vcpus|
    ensures |r| == |vcpus|
  {
    if which == [] then vcpus
    else
      var rest := StopVcpus(vcpus, which[..|which| - 1]);
      var i := which[|which| - 1];
      rest[i := rest[i].(state := VStopped)]
  }

  function VmStop(h: Hv, id: int): (r: Hv)
    requires Sized(h) && Exists(h, id)
    ensures Sized(r)
    ensures r.ids == h.ids && r.stats == h.stats
  {
    var vm := h.vms[id - 1];
    if vm.state == Stopped then h
    else h.(vms := h.vms[id - 1 := vm.(state := Stopped)],
            vcpus := StopVcpus(h.vcpus, vm.vcpus),
            s2 := Cleared(h.s2, vm.root, vm.mem))
  }

  /** The vCPUs that finalizing can still take from the pool. */
  function Taken(h: Hv, kind: Kind): nat
    requires Sized(h)
  {
    if VcpusOf(kind) <= VCPU_POOL - |h.vcpus| then VcpusOf(kind) else VCPU_POOL - |h.vcpus|
  }

  function FreshVcpus(vm: Vm, n: nat): seq<Vcpu> {
    seq(n, v => Vcpu(vm.id, v, VReady, vm.entry, vm.dtb))
  }

  function NextVcpus(base: nat, n: nat): seq<nat> {
    seq(n, v requires v >= 0 => base + v)
  }

  function VmFinalize(h: Hv, id: int): (r: Res)
    requires Sized(h) && Exists(h, id)
    ensures Sized(r.hv)
    ensures r.hv.ids == h.ids && r.hv.stats == h.stats
  {
    var vm := h.vms[id - 1];
    var s2 := Built(h.s2, vm.root, vm.kind, vm.mem);
    if Good(vm.mem) < |vm.mem| then Res(h.(s2 := s2), Inval)
    else
      var n, base := Taken(h, vm.kind), |h.vcpus|;
      var taken := vm.(vcpus := NextVcpus(base, n));
      var vcpus := h.vcpus + FreshVcpus(vm, n);
      if n < VcpusOf(vm.kind) then Res(h.(vms := h.vms[id - 1 := taken], vcpus := vcpus, s2 := s2), NoMem)
      else Res(h.(vms := h.vms[id - 1 := taken.(state := Ready)], vcpus := vcpus, s2 := s2), Ok)
  }

  function VmStart(h: Hv, id: int): (r: Res)
    requires Sized(h) && Exists(h, id)
    ensures Sized(r.hv)
    ensures r.hv.ids == h.ids && r.hv.stats == h.stats
  {
    var vm := h.vms[id - 1];
    if vm.state != Ready then Res(h, Inval) else Res(WithVm(h, id, vm.(state := Running)), Ok)
  }

  function VmSuspend(h: Hv, id: int): (r: Res)
    requires Sized(h) && Exists(h, id)
    ensures Sized(r.hv)
    ensures r.hv.ids == h.ids && r.hv.stats == h.stats
  {
    var vm := h.vms[id - 1];
    if vm.state != Running then Res(h, Inval) else Res(WithVm(h, id, vm.(state := Suspended)), Ok)
  }

  function VmResume(h: Hv, id: int): (r: Res)
    requires Sized(h) && Exists(h, id)
    ensures Sized(r.hv)
    ensures r.hv.ids == h.ids && r.hv.stats == h.stats
  {
    var vm := h.vms[id - 1];
    if vm.state != Suspended then Res(h, Inval) else Res(WithVm(h, id, vm.(state := Running)), Ok)
  }

  function SetEntry(h: Hv, i: nat, entry: u64): (r: Hv)
    requires Sized(h) && i < |h.vcpus|
    ensures Sized(r)
    ensures r.ids == h.ids && r.stats == h.stats
  {
    h.(vcpus := h.vcpus[i := h.vcpus[i].(elr := entry, x0 := 0)])
  }

  // ---------- trust engine and failover ----------

  function TrustGet(h: Hv, id: int): Level
    requires Sized(h)
  {
    if ValidId(id) && h.trust.up then h.trust.recs[id - 1].level else Unknown
  }

  function Blocked(level: Level): bool {
    level == Quarantine || level == Revoked
  }

  function WithRec(h: Hv, id: int, rec: TrustRec): (r: Hv)
    requires Sized(h) && ValidId(id)
    ensures Sized(r)
    ensures r.ids == h.ids && r.stats == h.stats
  {
    h.(trust := h.trust.(recs := h.trust.recs[id - 1 := rec]))
  }

  function TrustSet(h: Hv, id: int, level: Level, now: u64): (r: Hv)
    requires Sized(h)
    ensures Sized(r)
    ensures r.ids == h.ids && r.stats == h.stats
  {
    if !ValidId(id) || !h.trust.up then h
    else
      var rec := h.trust.recs[id - 1];
      if rec.level == level then h else WithRec(h, id, rec.(level := level, changedAt := now))
  }

  function TrustRevoke(h: Hv, id: int, now: u64): (r: Res)
    requires Sized(h)
    ensures Sized(r.hv)
    ensures r.hv.ids == h.ids && r.hv.stats == h.stats
  {
    if !ValidId(id) then Res(h, Inval)
    else if !Exists(h, id) then Res(h, NotFound)
    else Res(VmStop(TrustSet(h, id, Revoked, now), id), Ok)
  }

  const FAILOVER_MAX_ATTEMPTS: nat := 3

  /** Point vCPU 0 at the backup's entry, start the VM, watch it as degraded. */
  function Launch(h: Hv, id: int, entry: u64, now: u64): (r: Res)
    requires Sized(h) && Exists(h, id)
    ensures Sized(r.hv)
    ensures r.hv.ids == h.ids && r.hv.stats == h.stats
  {
    var vcpus := h.vms[id - 1].vcpus;
    var g := if |vcpus| > 0 then SetEntry(h, vcpus[0], entry) else h;
    var s := VmStart(g, id);
    if s.err != Ok then s else Res(TrustSet(s.hv, id, Degraded, now), Ok)
  }

  function Restart(h: Hv, id: int, entry: u64, now: u64): (r: Res)
    requires Sized(h) && Exists(h, id)
    ensures Sized(r.hv)
    ensures r.hv.ids == h.ids && r.hv.stats == h.stats
  {
    var f := VmFinalize(VmStop(h, id), id);
    if f.err != Ok then f else Launch(f.hv, id, entry, now)
  }

  function DoFailover(h: Hv, id: int, now: u64): (r: Res)
    requires Sized(h) && ValidId(id)
    ensures Sized(r.hv)
    ensures r.hv.ids == h.ids && r.hv.stats == h.stats
  {
    var bd := h.backups[id - 1];
    if !Exists(h, id) then Res(h, NotFound)
    else if bd.count >= FAILOVER_MAX_ATTEMPTS then Res(TrustRevoke(h, id, now).hv, Busy)
    else Restart(h.(backups := h.backups[id - 1 := bd.(count := bd.count + 1)]), id, bd.entry, now)
  }

  function FailoverOnQuarantine(h: Hv, id: int, now: u64): (r: Res)
    requires Sized(h)
    ensures Sized(r.hv)
    ensures r.hv.ids == h.ids && r.hv.stats == h.stats
  {
    if !ValidId(id) then Res(h, Inval)
    else if !h.failoverUp then Res(h, NotFound)
    else if !h.backups[id - 1].registered || !h.backups[id - 1].critical then Res(h, NotFound)
    else DoFailover(h, id, now)
  }

  function FailoverTrigger(h: Hv, id: int, now: u64): (r: Res)
    requires Sized(h)
    ensures Sized(r.hv)
    ensures r.hv.ids == h.ids && r.hv.stats == h.stats
  {
    if !ValidId(id) || !h.failoverUp then Res(h, Inval)
    else if !h.backups[id - 1].registered then Res(h, NotFound)
    else DoFailover(h, id, now)
  }

  function FailoverRegister(h: Hv, id: int, pa: u64, live: u64, size: u64, entry: u64): (r: Res)
    requires Sized(h)
    ensures Sized(r.hv)
    ensures r.hv.ids == h.ids && r.hv.stats == h.stats
  {
    if !ValidId(id) || !h.failoverUp || pa == 0 || size == 0 then Res(h, Inval)
    else if !Exists(h, id) then Res(h, NotFound)
    else Res(h.(backups := h.backups[id - 1 := Backup(true, pa, live, size, entry, true, 0)]), Ok)
  }

  function TrustQuarantine(h: Hv, id: int, now: u64): (r: Res)
    requires Sized(h)
    ensures Sized(r.hv)
    ensures r.hv.ids == h.ids && r.hv.stats == h.stats
  {
    if !ValidId(id) then Res(h, Inval)
    else if !Exists(h, id) then Res(h, NotFound)
    else if Blocked(h.trust.recs[id - 1].level) then Res(h, Ok)
    else
      var q := TrustSet(h, id, Quarantine, now);
      var q' := q.(trust := q.trust.(quarantines := Inc32(q.trust.quarantines)));
      Res(FailoverOnQuarantine(VmSuspend(q', id).hv, id, now).hv, Ok)
  }

  function TrustRestore(h: Hv, id: int, now: u64): (r: Res)
    requires Sized(h)
    ensures Sized(r.hv)
    ensures r.hv.ids == h.ids && r.hv.stats == h.stats
  {
    if !ValidId(id) then Res(h, Inval)
    else if !Exists(h, id) then Res(h, NotFound)
    else if h.trust.recs[id - 1].level != Quarantine then Res(h, Inval)
    else
      var cleared := WithRec(h, id, h.trust.recs[id - 1].(faults := 0));
      Res(VmResume(TrustSet(cleared, id, Degraded, now), id).hv, Ok)
  }

  const THRESH_DEGRADED: nat := 5
  const THRESH_QUARANTINE: nat := 15

  function ReportFault(h: Hv, id: int, faultType: u32, detail: u64, now: u64): (r: Res)
    requires Sized(h)
    ensures Sized(r.hv)
    ensures r.hv.ids == h.ids && r.hv.stats == h.stats
  {
    if !ValidId(id) || !h.trust.up then Res(h, Inval)
    else if h.trust.recs[id - 1].level == Revoked then Res(h, Ok)
    else
      var old' := h.trust.recs[id - 1];
      var rec := old'.(faults := Inc32(old'.faults), lastType := faultType, lastDetail := detail, lastFaultAt := now);
      var g := WithRec(h.(trust := h.trust.(total := Inc32(h.trust.total))), id, rec);
      if rec.faults >= THRESH_QUARANTINE then
        if !Blocked(rec.level) then Res(TrustQuarantine(g, id, now).hv, Ok) else Res(g, Ok)
      else if rec.faults >= THRESH_DEGRADED && rec.level == Trusted then Res(TrustSet(g, id, Degraded, now), Ok)
      else Res(g, Ok)
  }

  const CLEAN_PERIOD: nat := 30_000_000

  /** The clean-period rule for one record. */
  predicate Promotable(rec: TrustRec, now: u64) {
    rec.level == Degraded && rec.lastFaultAt <= now && now - rec.lastFaultAt >= CLEAN_PERIOD
  }

  /** How many of the first n records are promoted. */
  function Promotions(recs: seq<TrustRec>, n: nat, now: u64): nat
    requires n <= |recs|
  {
    if n == 0 then 0 else Promotions(recs, n - 1, now) + if Promotable(recs[n - 1], now) then 1 else 0
  }

  function PromoteOne(h: Hv, id: int, now: u64): (r: Hv)
    requires Sized(h) && ValidId(id)
    ensures Sized(r)
    ensures r.ids == h.ids && r.stats == h.stats
  {
    var rec := h.trust.recs[id - 1];
    if Promotable(rec, now) then TrustSet(WithRec(h, id, rec.(faults := 0)), id, Trusted, now) else h
  }

  function Promote(h: Hv, n: nat, now: u64): (r: Hv)
    requires Sized(h) && n <= MAX_VMS
    ensures Sized(r)
    ensures r.ids == h.ids && r.stats == h.stats
  {
    if n == 0 || !h.trust.up then h else PromoteOne(Promote(h, n - 1, now), n, now)
  }

  // ---------- intrusion detection ----------

  const STORM_FAULTS: nat := 4
  const STORM_WINDOW: nat := 1_000_000
  const RAPID_WINDOW: nat := 2_000_000
  const REPEAT_COUNT: nat := 3

  function Log(h: Hv, vm: int, kind: EventKind, sev: Severity, faultType: u32, detail: u64, now: u64): (r: Hv)
    requires Sized(h)
    ensures Sized(r)
    ensures r == h.(ids := r.ids)
  {
    var rec := Record(now, vm, kind, sev, faultType, detail, if vm == 0 then Unknown else TrustGet(h, vm));
    h.(ids := h.ids.(log := h.ids.log + [rec],
                     alerts := if sev == Alert then Inc32(h.ids.alerts) else h.ids.alerts))
  }

  function Anomaly(h: Hv): (r: Hv)
    requires Sized(h)
    ensures Sized(r)
    ensures r == h.(ids := r.ids)
  {
    h.(ids := h.ids.(anomalies := Inc32(h.ids.anomalies)))
  }

  function WithMon(h: Hv, id: int, m: Mon): (r: Hv)
    requires Sized(h) && ValidId(id)
    ensures Sized(r)
    ensures r == h.(ids := r.ids)
  {
    h.(ids := h.ids.(mon := h.ids.mon[id - 1 := m]))
  }

  function Evidence(h: Hv, id: int, faultType: u32, detail: u64, now: u64): (r: Hv)
    requires Sized(h) && ValidId(id)
    ensures Sized(r)
    ensures r == h.(ids := r.ids)
  {
    var g := Log(h, id, EvFault, Warn, faultType, detail, now);
    var m := g.ids.mon[id - 1];
    if m.first == 0 then WithMon(g, id, m.(first := now)) else g
  }

  function RepeatStage(h: Hv, id: int, faultType: u32, now: u64): (r: Hv)
    requires Sized(h) && ValidId(id)
    ensures Sized(r)
    ensures r == h.(ids := r.ids)
  {
    var m := h.ids.mon[id - 1];
    if faultType != m.lastType then WithMon(h, id, m.(run := 1, lastType := faultType))
    else
      var run := Inc32(m.run);
      var g := WithMon(h, id, m.(run := run));
      if run == REPEAT_COUNT then Log(Anomaly(g), id, EvRepeat, Alert, faultType, run, now) else g
  }

  predicate WindowExpired(m: Mon, now: u64) {
    Sub64(now, m.start) > STORM_WINDOW
  }

  function Enforce(h: Hv, id: int, faultType: u32, count: u32, now: u64): (r: Hv)
    requires Sized(h) && ValidId(id)
    ensures Sized(r)
    ensures r.stats == h.stats
  {
    if Blocked(TrustGet(h, id)) then h
    else
      var q := TrustQuarantine(h, id, now).hv;
      Log(q.(ids := q.ids.(enforcements := Inc32(q.ids.enforcements))), id, EvEnforce, Alert, faultType, count, now)
  }

  function StormStage(h: Hv, id: int, faultType: u32, now: u64): (r: Hv)
    requires Sized(h) && ValidId(id)
    ensures Sized(r)
    ensures r.stats == h.stats
  {
    var m := h.ids.mon[id - 1];
    if WindowExpired(m, now) then WithMon(h, id, m.(start := now, faults := 1))
    else
      var count := Inc32(m.faults);
      var g := WithMon(h, id, m.(faults := count));
      if count == STORM_FAULTS + 1 then
        Enforce(Log(Anomaly(g), id, EvStorm, Alert, faultType, count, now), id, faultType, count, now)
      else g
  }

  function RapidStage(h: Hv, id: int, faultType: u32, now: u64): (r: Hv)
    requires Sized(h) && ValidId(id)
    ensures Sized(r)
    ensures r == h.(ids := r.ids)
  {
    var m := h.ids.mon[id - 1];
    if Blocked(TrustGet(h, id)) && m.first != 0 && Sub64(now, m.first) < RAPID_WINDOW then
      WithMon(Log(Anomaly(h), id, EvRapid, Alert, faultType, Sub64(now, m.first), now), id, m.(first := 0))
    else h
  }

  function NotifyFault(h: Hv, id: int, faultType: u32, detail: u64, now: u64): (r: Hv)
    requires Sized(h)
    ensures Sized(r)
    ensures r.stats == h.stats
  {
    if !h.ids.up || !ValidId(id) then h
    else
      var a := Evidence(h, id, faultType, detail, now);
      var b := RepeatStage(a, id, faultType, now);
      var c := StormStage(b, id, faultType, now);
      RapidStage(c, id, faultType, now)
  }

  /** The VM is at a worse level than when it was last looked at. */
  predicate Dropped(h: Hv, id: int)
    requires Sized(h) && ValidId(id)
  {
    var prev := h.ids.mon[id - 1].seen;
    TrustGet(h, id).Rank() > prev.Rank() && prev != Unknown
  }

  function Drops(h: Hv, n: nat): nat
    requires Sized(h) && n <= MAX_VMS
  {
    if n == 0 then 0 else Drops(h, n - 1) + if Dropped(h, n) then 1 else 0
  }

  function PollOne(h: Hv, id: int, now: u64): (r: Hv)
    requires Sized(h) && ValidId(id)
    ensures Sized(r)
    ensures r == h.(ids := r.ids)
  {
    var cur, prev := TrustGet(h, id), h.ids.mon[id - 1].seen;
    var g := if Dropped(h, id)
             then Log(Anomaly(h), id, EvTrustDrop, Alert, 0, 256 * prev.Rank() + cur.Rank(), now)
             else h;
    WithMon(g, id, g.ids.mon[id - 1].(seen := cur))
  }

  function PollScan(h: Hv, n: nat, now: u64): (r: Hv)
    requires Sized(h) && n <= MAX_VMS
    ensures Sized(r)
    ensures r == h.(ids := r.ids)
  {
    if n == 0 then h else PollOne(PollScan(h, n - 1, now), n, now)
  }

  function Poll(h: Hv, now: u64): (r: Hv)
    requires Sized(h)
    ensures Sized(r)
    ensures r.stats == h.stats
  {
    if !h.ids.up then h
    else
      var p := Promote(PollScan(h, MAX_VMS, now), MAX_VMS, now);
      var l := Log(p, 0, EvPoll, Info, 0, p.trust.total, now);
      l.(ids := l.ids.(lastPoll := now))
  }

  // ---------- fault detection ----------

  const FAULT_MEM: u32 := 1
  const FAULT_DMA: u32 := 2

  function Feed(h: Hv, id: int, faultType: u32, detail: u64, now: u64): (r: Hv)
    requires Sized(h)
    ensures Sized(r)
    ensures r.stats == h.stats
  {
    if !ValidId(id) then h
    else NotifyFault(ReportFault(h, id, faultType, detail, now).hv, id, faultType, detail, now)
  }

  function MemFault(h: Hv, id: int, ipa: u64, isWrite: bool, now: u64): (r: Hv)
    requires Sized(h)
    ensures Sized(r)
  {
    if !h.stats.up then h
    else
      var g := h.(stats := h.stats.(mem := Inc32(h.stats.mem), total := Inc32(h.stats.total)));
      var detail := if isWrite && ipa < 0x8000_0000_0000_0000 then ipa + 0x8000_0000_0000_0000 else ipa;
      Feed(g, id, FAULT_MEM, detail, now)
  }

  function DmaViolation(h: Hv, id: int, pa: u64, now: u64): (r: Hv)
    requires Sized(h)
    ensures Sized(r)
  {
    if !h.stats.up then h
    else
      var g := h.(stats := h.stats.(dma := Inc32(h.stats.dma), total := Inc32(h.stats.total)));
      Feed(g, id, FAULT_DMA, pa, now)
  }

  function IrqUnrouted(h: Hv): (r: Hv)
    requires Sized(h)
    ensures Sized(r)
  {
    if !h.stats.up then h
    else h.(stats := h.stats.(irq := Inc32(h.stats.irq), total := Inc32(h.stats.total)))
  }

  // ---------- events ----------

  datatype Event =
    | EMemFault(id: int, ipa: u64, isWrite: bool)
    | EDma(id: int, pa: u64)
    | EIrq
    | EPoll
    | EQuarantine(id: int)
    | ERevoke(id: int)
    | ERestore(id: int)
    | ETrigger(id: int)
    | ERegister(id: int, pa: u64, live: u64, size: u64, entry: u64)
    | EStop(id: int)
    | ESuspend(id: int)
    | EResume(id: int)

  function Step(h: Hv, e: Event, now: u64): (r: Hv)
    requires Sized(h)
    ensures Sized(r)
  {
    match e
    case EMemFault(id, ipa, w) => MemFault(h, id, ipa, w, now)
    case EDma(id, pa) => DmaViolation(h, id, pa, now)
    case EIrq => IrqUnrouted(h)
    case EPoll => Poll(h, now)
    case EQuarantine(id) => TrustQuarantine(h, id, now).hv
    case ERevoke(id) => TrustRevoke(h, id, now).hv
    case ERestore(id) => TrustRestore(h, id, now).hv
    case ETrigger(id) => FailoverTrigger(h, id, now).hv
    case ERegister(id, pa, live, size, entry) => FailoverRegister(h, id, pa, live, size, entry).hv
    case EStop(id) => if Exists(h, id) then VmStop(h, id) else h
    case ESuspend(id) => if Exists(h, id) then VmSuspend(h, id).hv else h
    case EResume(id) => if Exists(h, id) then VmResume(h, id).hv else h
  }
}
