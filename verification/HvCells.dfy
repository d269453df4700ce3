/** What any event does to any one VM, in any state at all: one small automaton over its
    run state, trust level, fault count, failover record and the vCPUs left in the pool. */
module HvCells {
  import opened Words
  import opened VmSpec
  import opened HvSpec
  import opened HvInv
  import opened HvFrames
  import opened HvBase

  /** One VM, with the number of vCPUs that are left for all and the quarantines of all. */
  datatype Unit = Unit(cell: Cell, critical: bool, free: nat, quarantines: u32)

  /** What no event changes about it. */
  datatype Setting = Setting(trust: bool, failover: bool, need: nat, aligned: bool)

  function UnitOf(h: Hv, i: int): Unit
    requires Sized(h) && 0 <= i < |h.vms|
  {
    Unit(CellOf(h, i), h.backups[i].critical, VCPU_POOL - |h.vcpus|, h.trust.quarantines)
  }

  function SettingOf(h: Hv, i: int): Setting
    requires 0 <= i < |h.vms|
  {
    Setting(h.trust.up, h.failoverUp, VcpusOf(h.vms[i].kind), AllAligned(h.vms[i].mem))
  }

  // ---------- the automaton ----------

  function USet(p: Setting, u: Unit, level: Level): Unit {
    if p.trust then u.(cell := u.cell.(level := level)) else u
  }

  function UState(u: Unit, state: VmState): Unit {
    u.(cell := u.cell.(state := state))
  }

  function URevoke(p: Setting, u: Unit): Unit {
    UState(USet(p, u, Revoked), Stopped)
  }

  /** A restart fails for a misaligned region, and for lack of vCPUs, of which it then
      takes the last. */
  function URestart(p: Setting, u: Unit): Unit {
    if !p.aligned then UState(u, Stopped)
    else if u.free < p.need then UState(u, Stopped).(free := 0)
    else USet(p, UState(u, Running).(free := u.free - p.need), Degraded)
  }

  function UFailover(p: Setting, u: Unit): Unit {
    if u.cell.count >= FAILOVER_MAX_ATTEMPTS then URevoke(p, u)
    else URestart(p, u.(cell := u.cell.(count := u.cell.count + 1)))
  }

  /** A quarantine leads to a failover. */
  predicate Armed(p: Setting, u: Unit) {
    p.failover && u.cell.registered && u.critical
  }

  function UQuarantine(p: Setting, u: Unit): Unit {
    if Blocked(u.cell.level) then u
    else if Armed(p, u) then UFailover(p, UHold(p, u))
    else UHold(p, u)
  }

  /** Quarantined, counted and suspended. */
  function UHold(p: Setting, u: Unit): Unit {
    USet(p, u.(cell := CSuspend(u.cell), quarantines := Inc32(u.quarantines)), Quarantine)
  }

  function URestore(p: Setting, u: Unit): Unit {
    if u.cell.level != Quarantine then u
    else
      var r := USet(p, u.(cell := u.cell.(faults := 0)), Degraded);
      if r.cell.state == Suspended then UState(r, Running) else r
  }

  function UReport(p: Setting, u: Unit): Unit {
    if !p.trust || u.cell.level == Revoked then u
    else
      var d := u.(cell := u.cell.(faults := Inc32(u.cell.faults)));
      if d.cell.faults >= THRESH_QUARANTINE then UQuarantine(p, d)
      else if d.cell.faults >= THRESH_DEGRADED && d.cell.level == Trusted then USet(p, d, Degraded)
      else d
  }

  function UFeed(p: Setting, u: Unit, storm: bool): Unit {
    if storm then UQuarantine(p, UReport(p, u)) else UReport(p, u)
  }

  function UPromote(p: Setting, u: Unit, rec: TrustRec, now: u64): Unit {
    if p.trust && Promotable(rec, now) then u.(cell := u.cell.(level := Trusted, faults := 0)) else u
  }

  /** An event addressed to the VM that is not a fault. */
  function UOwn(p: Setting, u: Unit, e: Event): Unit {
    match e
    case EQuarantine(_) => UQuarantine(p, u)
    case ERevoke(_) => URevoke(p, u)
    case ERestore(_) => URestore(p, u)
    case ETrigger(_) => if p.failover && u.cell.registered then UFailover(p, u) else u
    case ERegister(_, pa, _, size, _) =>
      if !p.failover || pa == 0 || size == 0 then u
      else u.(cell := u.cell.(registered := true, count := 0), critical := true)
    case EStop(_) => UState(u, Stopped)
    case ESuspend(_) => u.(cell := CSuspend(u.cell))
    case EResume(_) => if u.cell.state == Suspended then UState(u, Running) else u
    case _ => u
  }

  predicate IsFault(e: Event) {
    e.EMemFault? || e.EDma?
  }

  function UStep(h: Hv, e: Event, now: u64, i: int): Unit
    requires Sized(h) && 0 <= i < |h.vms|
  {
    var p, u := SettingOf(h, i), UnitOf(h, i);
    if e.EPoll? then if h.ids.up then UPromote(p, u, h.trust.recs[i], now) else u
    else if e.EIrq? || e.id != i + 1 then u
    else if IsFault(e) then if h.stats.up then UFeed(p, u, StormNow(h, i + 1, now)) else u
    else UOwn(p, u, e)
  }

  // ---------- frames ----------

  /** From h to g the VM `id` went to `u`, and nothing else about any VM changed but the
      number of vCPUs left. */
  predicate UMoved(h: Hv, g: Hv, id: int, u: Unit)
    requires Sized(h) && Sized(g) && Exists(h, id)
  {
    && Evolved(h, g) && g.trust.up == h.trust.up && g.failoverUp == h.failoverUp && UnitOf(g, id - 1) == u
    && forall j :: 0 <= j < |h.vms| && j != id - 1 ==>
         CellOf(g, j) == CellOf(h, j) && g.backups[j].critical == h.backups[j].critical
  }

  lemma UMovedTwice(h: Hv, g: Hv, k: Hv, id: int, u: Unit, v: Unit)
    requires Sized(h) && Sized(g) && Sized(k) && Exists(h, id) && UMoved(h, g, id, u) && UMoved(g, k, id, v)
    ensures UMoved(h, k, id, v)
  {
  }

  lemma SameSetting(h: Hv, g: Hv, id: int, u: Unit)
    requires Sized(h) && Sized(g) && Exists(h, id) && UMoved(h, g, id, u)
    ensures Exists(g, id) && SettingOf(g, id - 1) == SettingOf(h, id - 1) && UnitOf(g, id - 1) == u
  {
  }

  // ---------- the entry points ----------

  lemma SetUnit(h: Hv, id: int, level: Level, now: u64)
    requires Sized(h) && Exists(h, id)
    ensures UMoved(h, TrustSet(h, id, level, now), id, USet(SettingOf(h, id - 1), UnitOf(h, id - 1), level))
  {
  }

  lemma StopUnit(h: Hv, id: int)
    requires Sized(h) && Exists(h, id)
    ensures UMoved(h, VmStop(h, id), id, UState(UnitOf(h, id - 1), Stopped))
  {
    hide Cleared;
  }

  lemma SuspendUnit(h: Hv, id: int)
    requires Sized(h) && Exists(h, id)
    ensures var u := UnitOf(h, id - 1); UMoved(h, VmSuspend(h, id).hv, id, u.(cell := CSuspend(u.cell)))
  {
  }

  lemma ResumeUnit(h: Hv, id: int)
    requires Sized(h) && Exists(h, id)
    ensures var u := UnitOf(h, id - 1);
            UMoved(h, VmResume(h, id).hv, id, if u.cell.state == Suspended then UState(u, Running) else u)
  {
  }

  lemma RevokeUnit(h: Hv, id: int, now: u64)
    requires Sized(h) && Exists(h, id)
    ensures UMoved(h, TrustRevoke(h, id, now).hv, id, URevoke(SettingOf(h, id - 1), UnitOf(h, id - 1)))
  {
    hide TrustSet, VmStop, UMoved;
    var g := TrustSet(h, id, Revoked, now);
    SetUnit(h, id, Revoked, now);
    SameSetting(h, g, id, USet(SettingOf(h, id - 1), UnitOf(h, id - 1), Revoked));
    StopUnit(g, id);
    UMovedTwice(h, g, VmStop(g, id), id, UnitOf(g, id - 1), URevoke(SettingOf(h, id - 1), UnitOf(h, id - 1)));
  }

  /** Finalizing a stopped VM. */
  lemma FinalizeUnit(h: Hv, id: int)
    requires Sized(h) && Exists(h, id) && h.vms[id - 1].state == Stopped
    ensures var p, u, f := SettingOf(h, id - 1), UnitOf(h, id - 1), VmFinalize(h, id);
            && (f.err == Ok <==> p.aligned && p.need <= u.free)
            && UMoved(h, f.hv, id,
                      if !p.aligned then u
                      else if u.free < p.need then u.(free := 0)
                      else UState(u, Ready).(free := u.free - p.need))
  {
    hide Built;
    var mem := h.vms[id - 1].mem;
    if AllAligned(mem) { GoodAll(mem); }
  }

  lemma StartUnit(h: Hv, i: nat, id: int, entry: u64)
    requires Sized(h) && Exists(h, id) && h.vms[id - 1].state == Ready
    ensures UMoved(h, VmStart(h, id).hv, id, UState(UnitOf(h, id - 1), Running)) && VmStart(h, id).err == Ok
    ensures i < |h.vcpus| ==> UMoved(h, SetEntry(h, i, entry), id, UnitOf(h, id - 1)) && SetEntry(h, i, entry).vms == h.vms
  {
    hide AllAligned;
  }

  lemma LaunchUnit(h: Hv, id: int, entry: u64, now: u64)
    requires Sized(h) && Exists(h, id) && h.vms[id - 1].state == Ready
    ensures UMoved(h, Launch(h, id, entry, now).hv, id,
                   USet(SettingOf(h, id - 1), UState(UnitOf(h, id - 1), Running), Degraded))
  {
    hide UMoved, SetEntry, VmStart, TrustSet, USet, AllAligned;
    var p, u, vcpus := SettingOf(h, id - 1), UnitOf(h, id - 1), h.vms[id - 1].vcpus;
    Unmoved(h, id);
    StartUnit(h, if |vcpus| > 0 then vcpus[0] else 0, id, entry);
    var g := if |vcpus| > 0 then SetEntry(h, vcpus[0], entry) else h;
    SameSetting(h, g, id, u);
    StartUnit(g, 0, id, entry);
    var s := VmStart(g, id).hv;
    UMovedTwice(h, g, s, id, u, UState(u, Running));
    SameSetting(h, s, id, UState(u, Running));
    SetUnit(s, id, Degraded, now);
    UMovedTwice(h, s, TrustSet(s, id, Degraded, now), id, UState(u, Running), USet(p, UState(u, Running), Degraded));
  }

  lemma RestartUnit(h: Hv, id: int, entry: u64, now: u64)
    requires Sized(h) && Exists(h, id)
    ensures UMoved(h, Restart(h, id, entry, now).hv, id, URestart(SettingOf(h, id - 1), UnitOf(h, id - 1)))
  {
    hide VmStop, VmFinalize, Launch, UMoved, AllAligned;
    var p, u, s := SettingOf(h, id - 1), UnitOf(h, id - 1), VmStop(h, id);
    StopUnit(h, id);
    SameSetting(h, s, id, UState(u, Stopped));
    FinalizeUnit(s, id);
    var f := VmFinalize(s, id).hv;
    var v := UnitOf(s, id - 1);
    var w := if !p.aligned then v else if v.free < p.need then v.(free := 0) else UState(v, Ready).(free := v.free - p.need);
    SameSetting(s, f, id, w);
    UMovedTwice(h, s, f, id, v, w);
    if p.aligned && p.need <= v.free {
      LaunchUnit(f, id, entry, now);
      UMovedTwice(h, f, Launch(f, id, entry, now).hv, id, w, URestart(p, u));
    }
  }

  lemma FailoverUnit(h: Hv, id: int, now: u64)
    requires Sized(h) && Exists(h, id)
    ensures UMoved(h, DoFailover(h, id, now).hv, id, UFailover(SettingOf(h, id - 1), UnitOf(h, id - 1)))
  {
    hide Restart, TrustRevoke, URestart, URevoke, AllAligned;
    var bd := h.backups[id - 1];
    if bd.count >= FAILOVER_MAX_ATTEMPTS {
      RevokeUnit(h, id, now);
    } else {
      var g := h.(backups := h.backups[id - 1 := bd.(count := bd.count + 1)]);
      RestartUnit(g, id, bd.entry, now);
      UMovedTwice(h, g, Restart(g, id, bd.entry, now).hv, id, UnitOf(g, id - 1), UFailover(SettingOf(h, id - 1), UnitOf(h, id - 1)));
    }
  }

  lemma QuarantineUnit(h: Hv, id: int, now: u64)
    requires Sized(h) && Exists(h, id)
    ensures UMoved(h, TrustQuarantine(h, id, now).hv, id, UQuarantine(SettingOf(h, id - 1), UnitOf(h, id - 1)))
  {
    hide DoFailover, UFailover, AllAligned;
    var p, u := SettingOf(h, id - 1), UnitOf(h, id - 1);
    if !Blocked(u.cell.level) {
      var q := TrustSet(h, id, Quarantine, now);
      var q' := q.(trust := q.trust.(quarantines := Inc32(q.trust.quarantines)));
      var s := VmSuspend(q', id).hv;
      var v := UHold(p, u);
      assert UMoved(h, s, id, v);
      if Armed(p, v) {
        FailoverUnit(s, id, now);
        UMovedTwice(h, s, DoFailover(s, id, now).hv, id, v, UFailover(p, v));
      }
    }
  }

  lemma RestoreUnit(h: Hv, id: int, now: u64)
    requires Sized(h) && Exists(h, id)
    ensures UMoved(h, TrustRestore(h, id, now).hv, id, URestore(SettingOf(h, id - 1), UnitOf(h, id - 1)))
  {
    hide UMoved, TrustSet, VmResume, USet, AllAligned;
    var p, u, rec := SettingOf(h, id - 1), UnitOf(h, id - 1), h.trust.recs[id - 1];
    Unmoved(h, id);
    if rec.level == Quarantine {
      var a, v := WithRec(h, id, rec.(faults := 0)), u.(cell := u.cell.(faults := 0));
      RecUnit(h, id, rec.(faults := 0));
      SameSetting(h, a, id, v);
      SetUnit(a, id, Degraded, now);
      var b := TrustSet(a, id, Degraded, now);
      UMovedTwice(h, a, b, id, v, USet(p, v, Degraded));
      SameSetting(h, b, id, USet(p, v, Degraded));
      ResumeUnit(b, id);
      UMovedTwice(h, b, VmResume(b, id).hv, id, USet(p, v, Degraded), URestore(p, u));
    }
  }

  lemma RecUnit(h: Hv, id: int, rec: TrustRec)
    requires Sized(h) && Exists(h, id) && rec.level == h.trust.recs[id - 1].level
    ensures var u := UnitOf(h, id - 1); UMoved(h, WithRec(h, id, rec), id, u.(cell := u.cell.(faults := rec.faults)))
  {
    hide AllAligned;
  }

  lemma ReportUnit(h: Hv, id: int, faultType: u32, detail: u64, now: u64)
    requires Sized(h) && Exists(h, id)
    ensures UMoved(h, ReportFault(h, id, faultType, detail, now).hv, id, UReport(SettingOf(h, id - 1), UnitOf(h, id - 1)))
  {
    hide TrustQuarantine, UQuarantine, AllAligned;
    var p, u, old' := SettingOf(h, id - 1), UnitOf(h, id - 1), h.trust.recs[id - 1];
    if h.trust.up && old'.level != Revoked {
      var rec := old'.(faults := Inc32(old'.faults), lastType := faultType, lastDetail := detail, lastFaultAt := now);
      var g := WithRec(h.(trust := h.trust.(total := Inc32(h.trust.total))), id, rec);
      var d := u.(cell := u.cell.(faults := Inc32(u.cell.faults)));
      assert UMoved(h, g, id, d);
      if rec.faults >= THRESH_QUARANTINE {
        QuarantineUnit(g, id, now);
        UMovedTwice(h, g, TrustQuarantine(g, id, now).hv, id, d, UQuarantine(p, d));
        BlockedStays(p, d);
      } else {
        SetUnit(g, id, Degraded, now);
        UMovedTwice(h, g, TrustSet(g, id, Degraded, now), id, d, USet(p, d, Degraded));
      }
    }
  }

  lemma BlockedStays(p: Setting, u: Unit)
    ensures Blocked(u.cell.level) ==> UQuarantine(p, u) == u
  {
  }

  // ---------- faults ----------

  /** Nothing about any VM changed. */
  lemma StillUnit(h: Hv, g: Hv, k: Hv, m: Hv, id: int, u: Unit)
    requires Sized(h) && Sized(g) && Sized(k) && Sized(m) && Exists(h, id)
    requires OnlyIds(h, g) && UMoved(g, k, id, u) && OnlyIds(k, m)
    ensures UMoved(h, m, id, u)
  {
  }

  lemma EnforceUnit(h: Hv, id: int, faultType: u32, count: u32, now: u64)
    requires Sized(h) && Exists(h, id)
    ensures UMoved(h, Enforce(h, id, faultType, count, now), id, UQuarantine(SettingOf(h, id - 1), UnitOf(h, id - 1)))
  {
    hide TrustQuarantine, UQuarantine, AllAligned;
    var p, u := SettingOf(h, id - 1), UnitOf(h, id - 1);
    BlockedStays(p, u);
    QuarantineUnit(h, id, now);
    if !Blocked(TrustGet(h, id)) {
      StillUnit(h, h, TrustQuarantine(h, id, now).hv, Enforce(h, id, faultType, count, now), id, UQuarantine(p, u));
    }
  }

  lemma StormUnit(h: Hv, id: int, faultType: u32, now: u64)
    requires Sized(h) && Exists(h, id) && h.ids.up
    ensures var p, u := SettingOf(h, id - 1), UnitOf(h, id - 1);
            UMoved(h, StormStage(h, id, faultType, now), id, if StormNow(h, id, now) then UQuarantine(p, u) else u)
  {
    hide Enforce, UQuarantine, AllAligned;
    var m, r := h.ids.mon[id - 1], StormStage(h, id, faultType, now);
    if StormNow(h, id, now) {
      var count := Inc32(m.faults);
      var g := Log(Anomaly(WithMon(h, id, m.(faults := count))), id, EvStorm, Alert, faultType, count, now);
      EnforceUnit(g, id, faultType, count, now);
      StillUnit(h, g, r, r, id, UQuarantine(SettingOf(h, id - 1), UnitOf(h, id - 1)));
    }
  }

  lemma SameWindow(h: Hv, id: int, faultType: u32, detail: u64, now: u64)
    requires Sized(h) && ValidId(id)
    ensures var b := RepeatStage(Evidence(h, id, faultType, detail, now), id, faultType, now);
            b.ids.up == h.ids.up && (StormNow(b, id, now) <==> StormNow(h, id, now))
  {
  }

  lemma NotifyUnit(h: Hv, id: int, faultType: u32, detail: u64, now: u64)
    requires Sized(h) && Exists(h, id)
    ensures var p, u := SettingOf(h, id - 1), UnitOf(h, id - 1);
            UMoved(h, NotifyFault(h, id, faultType, detail, now), id, if StormNow(h, id, now) then UQuarantine(p, u) else u)
  {
    hide StormStage, UQuarantine, AllAligned;
    if h.ids.up {
      var b := RepeatStage(Evidence(h, id, faultType, detail, now), id, faultType, now);
      SameWindow(h, id, faultType, detail, now);
      hide RepeatStage, Evidence, StormNow, UMoved;
      StormUnit(b, id, faultType, now);
      var c := StormStage(b, id, faultType, now);
      StillUnit(h, b, c, RapidStage(c, id, faultType, now), id, UnitOf(c, id - 1));
    }
  }

  lemma FeedUnit(h: Hv, g: Hv, id: int, faultType: u32, detail: u64, now: u64)
    requires Sized(h) && Sized(g) && Exists(h, id) && g == h.(stats := g.stats)
    ensures UMoved(h, Feed(g, id, faultType, detail, now), id,
                   UFeed(SettingOf(h, id - 1), UnitOf(h, id - 1), StormNow(h, id, now)))
  {
    hide ReportFault, NotifyFault, UReport, UQuarantine, AllAligned;
    var p, u, k := SettingOf(h, id - 1), UnitOf(h, id - 1), ReportFault(g, id, faultType, detail, now).hv;
    ReportUnit(g, id, faultType, detail, now);
    NotifyUnit(k, id, faultType, detail, now);
    SameSetting(g, k, id, UReport(p, u));
    UMovedTwice(g, k, Feed(g, id, faultType, detail, now), id, UReport(p, u), UFeed(p, u, StormNow(h, id, now)));
    StillUnit(h, g, Feed(g, id, faultType, detail, now), Feed(g, id, faultType, detail, now), id, UFeed(p, u, StormNow(h, id, now)));
  }

  /** Nothing about any VM changed. */
  predicate StillCells(h: Hv, g: Hv)
    requires Sized(h) && Sized(g)
  {
    && Evolved(h, g) && g.trust.up == h.trust.up && g.failoverUp == h.failoverUp
    && forall j :: 0 <= j < |h.vms| ==> CellOf(g, j) == CellOf(h, j) && g.backups[j].critical == h.backups[j].critical
  }

  lemma AbsentReport(h: Hv, id: int, faultType: u32, detail: u64, now: u64)
    requires Sized(h) && !Exists(h, id)
    ensures StillCells(h, ReportFault(h, id, faultType, detail, now).hv)
  {
    hide AllAligned;
  }

  lemma StillTwice(h: Hv, g: Hv, k: Hv, m: Hv)
    requires Sized(h) && Sized(g) && Sized(k) && Sized(m) && OnlyIds(h, g) && StillCells(g, k) && OnlyIds(k, m)
    ensures StillCells(h, m)
  {
  }

  lemma AbsentFeed(h: Hv, g: Hv, id: int, faultType: u32, detail: u64, now: u64)
    requires Sized(h) && Sized(g) && !Exists(h, id) && g == h.(stats := g.stats)
    ensures StillCells(h, Feed(g, id, faultType, detail, now))
  {
    hide ReportFault, NotifyFault, StillCells, AllAligned;
    Unmoved(g, id);
    AbsentReport(g, id, faultType, detail, now);
    var k := ReportFault(g, id, faultType, detail, now).hv;
    if ValidId(id) {
      StillVms(g, k);
      AbsentNotify(k, id, faultType, detail, now);
      StillTwice(h, g, k, NotifyFault(k, id, faultType, detail, now));
    } else {
      StillTwice(h, g, g, g);
    }
  }

  lemma StillVms(h: Hv, g: Hv)
    requires Sized(h) && Sized(g) && StillCells(h, g)
    ensures |g.vms| == |h.vms|
  {
  }

  function Charged(h: Hv, e: Event): (g: Hv)
    requires Sized(h) && IsFault(e)
    ensures Sized(g) && g == h.(stats := g.stats)
  {
    var total := Inc32(h.stats.total);
    if e.EMemFault? then h.(stats := h.stats.(mem := Inc32(h.stats.mem), total := total))
    else h.(stats := h.stats.(dma := Inc32(h.stats.dma), total := total))
  }

  lemma FaultStep(h: Hv, e: Event, now: u64) returns (faultType: u32, detail: u64)
    requires Sized(h) && IsFault(e) && h.stats.up
    ensures Step(h, e, now) == Feed(Charged(h, e), e.id, faultType, detail, now)
  {
    hide Feed;
    if e.EMemFault? {
      faultType := FAULT_MEM;
      detail := if e.isWrite && e.ipa < 0x8000_0000_0000_0000 then e.ipa + 0x8000_0000_0000_0000 else e.ipa;
    } else {
      faultType, detail := FAULT_DMA, e.pa;
    }
  }

  /** The VM an event is addressed to moves as the automaton says and no other moves. */
  ghost predicate Follows(h: Hv, e: Event, now: u64)
    requires Sized(h) && !e.EPoll? && !e.EIrq?
  {
    var g := Step(h, e, now);
    if Exists(h, e.id) then UMoved(h, g, e.id, UStep(h, e, now, e.id - 1)) else StillCells(h, g)
  }

  lemma FaultFollows(h: Hv, e: Event, now: u64)
    requires Sized(h) && IsFault(e)
    ensures Follows(h, e, now)
  {
    hide Feed, UFeed, AllAligned, UMoved, StillCells, Charged, StormNow, UOwn;
    if h.stats.up {
      var faultType, detail := FaultStep(h, e, now);
      hide Step;
      if Exists(h, e.id) {
        FeedUnit(h, Charged(h, e), e.id, faultType, detail, now);
      } else {
        AbsentFeed(h, Charged(h, e), e.id, faultType, detail, now);
      }
    } else {
      Unmoved(h, e.id);
    }
  }

  lemma Unmoved(h: Hv, id: int)
    requires Sized(h)
    ensures StillCells(h, h) && (Exists(h, id) ==> UMoved(h, h, id, UnitOf(h, id - 1)))
  {
    hide AllAligned;
  }

  lemma CommandFollows(h: Hv, e: Event, now: u64)
    requires Sized(h) && (e.EQuarantine? || e.ERevoke? || e.ERestore? || e.ETrigger?)
    ensures Follows(h, e, now)
  {
    hide UMoved, StillCells, TrustQuarantine, TrustRevoke, TrustRestore, DoFailover, AllAligned;
    hide UQuarantine, URevoke, URestore, UFailover;
    Unmoved(h, e.id);
    if Exists(h, e.id) {
      QuarantineUnit(h, e.id, now);
      RevokeUnit(h, e.id, now);
      RestoreUnit(h, e.id, now);
      FailoverUnit(h, e.id, now);
    } else {
      AbsentCommand(h, e, now);
    }
  }

  lemma AbsentCommand(h: Hv, e: Event, now: u64)
    requires Sized(h) && !Exists(h, if e.EPoll? || e.EIrq? then 0 else e.id)
    requires e.EQuarantine? || e.ERevoke? || e.ERestore? || e.ETrigger? || e.EStop? || e.ESuspend? || e.EResume? || e.ERegister?
    ensures Step(h, e, now) == h
  {
  }

  lemma RegisterUnit(h: Hv, e: Event)
    requires Sized(h) && e.ERegister? && Exists(h, e.id)
    ensures UMoved(h, FailoverRegister(h, e.id, e.pa, e.live, e.size, e.entry).hv, e.id,
                   UOwn(SettingOf(h, e.id - 1), UnitOf(h, e.id - 1), e))
  {
    hide AllAligned;
  }

  lemma CallFollows(h: Hv, e: Event, now: u64)
    requires Sized(h) && (e.EStop? || e.ESuspend? || e.EResume? || e.ERegister?)
    ensures Follows(h, e, now)
  {
    hide VmStop, VmSuspend, VmResume, FailoverRegister, UMoved, StillCells, AllAligned;
    if Exists(h, e.id) {
      if e.ERegister? { RegisterUnit(h, e); }
      StopUnit(h, e.id);
      SuspendUnit(h, e.id);
      ResumeUnit(h, e.id);
    } else {
      AbsentCommand(h, e, now);
      Unmoved(h, e.id);
    }
  }

  // ---------- polls ----------

  function PromotedRec(rec: TrustRec, now: u64): TrustRec {
    if Promotable(rec, now) then rec.(level := Trusted, faults := 0, changedAt := now) else rec
  }

  lemma PromoteOneRec(h: Hv, id: int, now: u64)
    requires Sized(h) && ValidId(id) && h.trust.up
    ensures PromoteOne(h, id, now)
         == h.(trust := h.trust.(recs := h.trust.recs[id - 1 := PromotedRec(h.trust.recs[id - 1], now)]))
  {
    assert h.trust.recs[id - 1 := h.trust.recs[id - 1]] == h.trust.recs;
  }

  lemma {:induction false} PromoteRecs(h: Hv, n: nat, now: u64)
    requires Sized(h) && n <= MAX_VMS && h.trust.up
    ensures var g := Promote(h, n, now);
            && g == h.(trust := h.trust.(recs := g.trust.recs))
            && forall i :: 0 <= i < MAX_VMS ==>
                 g.trust.recs[i] == if i < n then PromotedRec(h.trust.recs[i], now) else h.trust.recs[i]
  {
    hide PromoteOne, PromotedRec;
    if n > 0 {
      PromoteRecs(h, n - 1, now);
      PromoteOneRec(Promote(h, n - 1, now), n, now);
    }
  }

  lemma PollUnit(h: Hv, now: u64, i: int)
    requires Sized(h) && 0 <= i < |h.vms|
    ensures var g := Poll(h, now);
            && |g.vms| == |h.vms| && SettingOf(g, i) == SettingOf(h, i) && UnitOf(g, i) == UStep(h, EPoll, now, i)
  {
    hide PollScan, AllAligned;
    if h.ids.up && h.trust.up { PromoteRecs(PollScan(h, MAX_VMS, now), MAX_VMS, now); }
  }

  // ---------- every event, every VM, every state ----------

  lemma FollowedAt(h: Hv, e: Event, now: u64, i: int)
    requires Sized(h) && !e.EPoll? && !e.EIrq? && Follows(h, e, now) && 0 <= i < |h.vms|
    ensures var g := Step(h, e, now);
            && |g.vms| == |h.vms| && SettingOf(g, i) == SettingOf(h, i) && UnitOf(g, i).cell == UStep(h, e, now, i).cell
            && (e.id == i + 1 ==> UnitOf(g, i) == UStep(h, e, now, i))
  {
    hide Step, UOwn, UFeed, StormNow, AllAligned, CellOf;
  }

  lemma UnitStep(h: Hv, e: Event, now: u64, i: int)
    requires Sized(h) && 0 <= i < |h.vms|
    ensures var g := Step(h, e, now);
            && |g.vms| == |h.vms| && SettingOf(g, i) == SettingOf(h, i) && CellOf(g, i) == UStep(h, e, now, i).cell
            && (e.EPoll? || e.EIrq? || e.id == i + 1 ==> UnitOf(g, i) == UStep(h, e, now, i))
  {
    hide Follows, Poll, UOwn, UFeed, UPromote, AllAligned, MemFault, DmaViolation, TrustQuarantine, TrustRevoke;
    hide TrustRestore, FailoverTrigger, VmStop;
    if e.EPoll? {
      PollUnit(h, now, i);
    } else if !e.EIrq? {
      if IsFault(e) {
        FaultFollows(h, e, now);
      } else if e.EQuarantine? || e.ERevoke? || e.ERestore? || e.ETrigger? {
        CommandFollows(h, e, now);
      } else {
        CallFollows(h, e, now);
      }
      FollowedAt(h, e, now, i);
    }
  }

  // ---------- while failovers succeed ----------

  function CPromote(c: Cell, rec: TrustRec, now: u64): Cell {
    if Promotable(rec, now) then c.(level := Trusted, faults := 0) else c
  }

  /** What the event does to a VM it is addressed to. */
  function COwn(c: Cell, e: Event): Cell {
    match e
    case EQuarantine(_) => CQuarantine(c)
    case ERevoke(_) => CRevoke(c)
    case ERestore(_) => CRestore(c)
    case ETrigger(_) => if c.registered then CFailover(c) else c
    case ERegister(_, pa, _, size, _) => if pa == 0 || size == 0 then c else c.(registered := true, count := 0)
    case EStop(_) => c.(state := Stopped)
    case ESuspend(_) => CSuspend(c)
    case EResume(_) => if c.state == Suspended then c.(state := Running) else c
    case _ => c
  }

  function CStep(h: Hv, e: Event, now: u64, i: int): Cell
    requires Sized(h) && 0 <= i < |h.vms|
  {
    var c := CellOf(h, i);
    if e.EPoll? then if h.ids.up then CPromote(c, h.trust.recs[i], now) else c
    else if e.EIrq? || e.id != i + 1 then c
    else if IsFault(e) then if h.stats.up then CFeed(c, StormNow(h, i + 1, now)) else c
    else COwn(c, e)
  }

  /** Everything is up and there are vCPUs for all restarts that are left. */
  predicate Funded(p: Setting, u: Unit) {
    && p.trust && p.failover && p.aligned && 1 <= p.need <= 2
    && (u.cell.registered ==> u.critical) && u.cell.count <= FAILOVER_MAX_ATTEMPTS
    && u.free >= if p.need == 2 then 2 * (FAILOVER_MAX_ATTEMPTS - u.cell.count) else FAILOVER_MAX_ATTEMPTS - u.cell.count
  }

  lemma FundedFailover(p: Setting, u: Unit)
    requires Funded(p, u)
    ensures UFailover(p, u).cell == CFailover(u.cell) && Funded(p, UFailover(p, u))
  {
  }

  lemma FundedQuarantine(p: Setting, u: Unit)
    requires Funded(p, u)
    ensures UQuarantine(p, u).cell == CQuarantine(u.cell) && Funded(p, UQuarantine(p, u))
  {
    hide UFailover, CFailover;
    FundedFailover(p, UHold(p, u));
  }

  lemma FundedFeed(p: Setting, u: Unit, storm: bool)
    requires Funded(p, u)
    ensures UFeed(p, u, storm).cell == CFeed(u.cell, storm)
  {
    hide UQuarantine, CQuarantine;
    FundedQuarantine(p, u.(cell := u.cell.(faults := Inc32(u.cell.faults))));
    FundedQuarantine(p, UReport(p, u));
  }

  lemma FundedOwn(p: Setting, u: Unit, e: Event)
    requires Funded(p, u)
    ensures UOwn(p, u, e).cell == COwn(u.cell, e)
  {
    hide UQuarantine, CQuarantine, UFailover, CFailover;
    FundedQuarantine(p, u);
    FundedFailover(p, u);
  }

  lemma BaseFunded(h: Hv, i: int)
    requires Base(h) && 0 <= i < |h.vms|
    ensures Funded(SettingOf(h, i), UnitOf(h, i))
  {
    VcpusLeft(h, i + 1);
    assert BackupOk(h.backups[i]);
  }

  /** In an intact machine failovers succeed, and what is left of the automaton is this. */
  lemma StepCell(h: Hv, e: Event, now: u64, i: int)
    requires Base(h) && 0 <= i < |h.vms|
    ensures |Step(h, e, now).vms| == |h.vms| && CellOf(Step(h, e, now), i) == CStep(h, e, now, i)
  {
    hide Base, Step, Funded, UFeed, CFeed, UOwn, COwn, StormNow, AllAligned;
    BaseSized(h);
    BaseUp(h);
    var p, u := SettingOf(h, i), UnitOf(h, i);
    UnitStep(h, e, now, i);
    BaseFunded(h, i);
    FundedFeed(p, u, StormNow(h, i + 1, now));
    FundedOwn(p, u, e);
  }

  lemma BaseUp(h: Hv)
    requires Base(h)
    ensures h.trust.up && h.failoverUp
  {
  }
}
