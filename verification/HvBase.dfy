/** Steps of the machine in which failovers succeed: what they do to the VM they
    concern, and that they keep the invariant `Base` of all VMs. */
module HvBase {
  import opened Words
  import opened HvSpec
  import opened HvInv

  // ---------- the entry points that also touch the monitor ----------

  /** Nothing but the monitor and the fault statistics changed. */
  predicate OnlyIds(h: Hv, g: Hv) {
    g == h.(ids := g.ids, stats := g.stats)
  }

  lemma QuietMove(h: Hv, g: Hv, k: Hv, m: Hv, id: int, c: Cell)
    requires Base(h) && Exists(h, id) && Sized(g) && Sized(m)
    requires OnlyIds(h, g) && Base(g) && Moved(g, k, id, c) && OnlyIds(k, m)
    ensures Base(m) && Moved(h, m, id, c)
  {
    QuietBase(k, m);
  }

  lemma QuietBase(h: Hv, g: Hv)
    requires Base(h) && Sized(g) && OnlyIds(h, g)
    ensures Base(g)
  {
    forall i | 0 <= i < |g.vms| ensures VmOk(g, i) { assert VmOk(h, i); }
    UseSame(h, g, |h.vms|);
  }

  /** This fault is the one that raises the storm alert. */
  predicate StormNow(h: Hv, id: int, now: u64)
    requires Sized(h) && ValidId(id)
  {
    h.ids.up && !WindowExpired(h.ids.mon[id - 1], now) && Inc32(h.ids.mon[id - 1].faults) == STORM_FAULTS + 1
  }

  function CFeed(c: Cell, storm: bool): Cell {
    if storm then CQuarantine(CReport(c)) else CReport(c)
  }

  lemma EnforceMove(h: Hv, id: int, faultType: u32, count: u32, now: u64)
    requires Base(h) && Exists(h, id)
    ensures Moved(h, Enforce(h, id, faultType, count, now), id, CQuarantine(CellOf(h, id - 1)))
  {
    QuarantineMove(h, id, now);
    var q := TrustQuarantine(h, id, now).hv;
    var m := Enforce(h, id, faultType, count, now);
    if !Blocked(TrustGet(h, id)) {
      QuietMove(h, h, q, m, id, CQuarantine(CellOf(h, id - 1)));
    }
  }

  lemma StormMove(h: Hv, id: int, faultType: u32, now: u64)
    requires Base(h) && Exists(h, id) && h.ids.up
    ensures Moved(h, StormStage(h, id, faultType, now), id,
                  if StormNow(h, id, now) then CQuarantine(CellOf(h, id - 1)) else CellOf(h, id - 1))
  {
    var m := h.ids.mon[id - 1];
    var r := StormStage(h, id, faultType, now);
    QuietFrame(h, h, id);
    if StormNow(h, id, now) {
      var count := Inc32(m.faults);
      var g := Log(Anomaly(WithMon(h, id, m.(faults := count))), id, EvStorm, Alert, faultType, count, now);
      QuietBase(h, g);
      EnforceMove(g, id, faultType, count, now);
      QuietMove(h, g, r, r, id, CQuarantine(CellOf(h, id - 1)));
    } else {
      QuietMove(h, h, h, r, id, CellOf(h, id - 1));
    }
  }

  lemma NotifyMove(h: Hv, id: int, faultType: u32, detail: u64, now: u64)
    requires Base(h) && Exists(h, id)
    ensures Moved(h, NotifyFault(h, id, faultType, detail, now), id,
                  if StormNow(h, id, now) then CQuarantine(CellOf(h, id - 1)) else CellOf(h, id - 1))
  {
    if h.ids.up {
      var a := Evidence(h, id, faultType, detail, now);
      var b := RepeatStage(a, id, faultType, now);
      EarlyStages(h, id, faultType, detail, now);
      StormMove(b, id, faultType, now);
      var c := StormStage(b, id, faultType, now);
      QuietMove(h, b, c, RapidStage(c, id, faultType, now), id, CellOf(c, id - 1));
    } else {
      QuietFrame(h, h, id);
    }
  }

  lemma EarlyStages(h: Hv, id: int, faultType: u32, detail: u64, now: u64)
    requires Base(h) && Exists(h, id) && h.ids.up
    ensures var b := RepeatStage(Evidence(h, id, faultType, detail, now), id, faultType, now);
            && Base(b) && OnlyIds(h, b) && b.ids.up && (StormNow(b, id, now) <==> StormNow(h, id, now))
            && CellOf(b, id - 1) == CellOf(h, id - 1)
  {
    QuietBase(h, RepeatStage(Evidence(h, id, faultType, detail, now), id, faultType, now));
  }

  lemma FeedMove(h: Hv, id: int, faultType: u32, detail: u64, now: u64)
    requires Base(h) && Exists(h, id)
    ensures Moved(h, Feed(h, id, faultType, detail, now), id, CFeed(CellOf(h, id - 1), StormNow(h, id, now)))
  {
    var g := ReportFault(h, id, faultType, detail, now).hv;
    ReportMove(h, id, faultType, detail, now);
    NotifyMove(g, id, faultType, detail, now);
    MovedTwice(h, g, Feed(h, id, faultType, detail, now), id, CellOf(g, id - 1), CFeed(CellOf(h, id - 1), StormNow(h, id, now)));
  }

  // ---------- the invariant of the tables and the vCPU pool ----------

  /** Registering a VM for failover wipes its restart count, so it has to come before
      the first restart. */
  predicate Early(h: Hv, e: Event)
    requires Sized(h)
  {
    e.ERegister? && Exists(h, e.id) && e.pa != 0 && e.size != 0 ==> h.backups[e.id - 1].count == 0
  }

  /** Only the trust record of a VM that does not exist, or nothing at all, changed. */
  lemma AbsentBase(h: Hv, g: Hv)
    requires Base(h) && Sized(g) && g == h.(trust := g.trust, ids := g.ids, stats := g.stats) && g.trust.up
    requires forall i :: |h.vms| <= i < MAX_VMS ==> g.trust.recs[i].level == Unknown
    ensures Base(g)
  {
    forall i | 0 <= i < |g.vms| ensures VmOk(g, i) { assert VmOk(h, i); }
    UseSame(h, g, |h.vms|);
  }

  lemma AbsentNotify(h: Hv, id: int, faultType: u32, detail: u64, now: u64)
    requires Sized(h) && !Exists(h, id)
    ensures OnlyIds(h, NotifyFault(h, id, faultType, detail, now))
  {
  }

  lemma FeedBase(h: Hv, id: int, faultType: u32, detail: u64, now: u64)
    requires Base(h)
    ensures Base(Feed(h, id, faultType, detail, now))
  {
    if Exists(h, id) {
      FeedMove(h, id, faultType, detail, now);
    } else if ValidId(id) {
      var g := ReportFault(h, id, faultType, detail, now).hv;
      AbsentBase(h, g);
      AbsentNotify(g, id, faultType, detail, now);
      QuietBase(g, NotifyFault(g, id, faultType, detail, now));
    }
  }

  lemma MemFaultBase(h: Hv, id: int, ipa: u64, isWrite: bool, now: u64)
    requires Base(h)
    ensures Base(MemFault(h, id, ipa, isWrite, now))
  {
    var g := h.(stats := h.stats.(mem := Inc32(h.stats.mem), total := Inc32(h.stats.total)));
    var detail := if isWrite && ipa < 0x8000_0000_0000_0000 then ipa + 0x8000_0000_0000_0000 else ipa;
    QuietBase(h, g);
    hide Base, Feed;
    FeedBase(g, id, FAULT_MEM, detail, now);
  }

  lemma DmaBase(h: Hv, id: int, pa: u64, now: u64)
    requires Base(h)
    ensures Base(DmaViolation(h, id, pa, now))
  {
    var g := h.(stats := h.stats.(dma := Inc32(h.stats.dma), total := Inc32(h.stats.total)));
    QuietBase(h, g);
    hide Base, Feed;
    FeedBase(g, id, FAULT_DMA, pa, now);
  }

  lemma PromoteOneBase(h: Hv, id: int, now: u64)
    requires Base(h) && ValidId(id)
    ensures Base(PromoteOne(h, id, now))
  {
    if Promotable(h.trust.recs[id - 1], now) { AbsentBase(h, PromoteOne(h, id, now)); }
  }

  lemma {:induction false} PromoteBase(h: Hv, n: nat, now: u64)
    requires Base(h) && n <= MAX_VMS
    ensures Base(Promote(h, n, now))
  {
    hide PromoteOne;
    if n > 0 {
      PromoteBase(h, n - 1, now);
      PromoteOneBase(Promote(h, n - 1, now), n, now);
    }
  }

  lemma PollBase(h: Hv, now: u64)
    requires Base(h)
    ensures Base(Poll(h, now))
  {
    hide Promote, PollScan;
    if h.ids.up {
      var a := PollScan(h, MAX_VMS, now);
      QuietBase(h, a);
      PromoteBase(a, MAX_VMS, now);
      QuietBase(Promote(a, MAX_VMS, now), Poll(h, now));
    }
  }

  lemma RegisterBase(h: Hv, e: Event)
    requires Base(h) && e.ERegister? && Early(h, e)
    ensures Base(FailoverRegister(h, e.id, e.pa, e.live, e.size, e.entry).hv)
  {
    var r := FailoverRegister(h, e.id, e.pa, e.live, e.size, e.entry);
    if r.err == Ok {
      assert BackupOk(h.backups[e.id - 1]);
      QuietFrame(h, r.hv, e.id);
    }
  }

  lemma {:induction false} UseReset(h: Hv, g: Hv, n: int, i: int)
    requires Sized(h) && Sized(g) && 0 <= i < n <= |h.vms| && n <= |g.vms|
    requires forall j :: 0 <= j < n ==> g.vms[j].kind == h.vms[j].kind
    requires forall j :: 0 <= j < n && j != i ==> g.backups[j].count == h.backups[j].count
    requires g.backups[i].count == 0 < h.backups[i].count
    ensures Use(g, n) < Use(h, n)
  {
    if i < n - 1 { UseReset(h, g, n - 1, i); } else { UseSame(h, g, n - 1); }
  }

  /** Exactly an early registration keeps the books of the vCPU pool right. */
  lemma EarlyExact(h: Hv, e: Event, now: u64)
    requires Base(h) && e.ERegister?
    ensures Base(Step(h, e, now)) <==> Early(h, e)
  {
    if Early(h, e) {
      RegisterBase(h, e);
    } else {
      UseReset(h, Step(h, e, now), |h.vms|, e.id - 1);
    }
  }

  lemma CommandBase(h: Hv, e: Event, now: u64)
    requires Base(h) && (e.EQuarantine? || e.ERevoke? || e.ERestore? || e.ETrigger?)
    ensures Base(Step(h, e, now))
  {
    hide DoFailover;
    if Exists(h, e.id) {
      match e {
        case EQuarantine(id) => QuarantineMove(h, id, now);
        case ERevoke(id) => RevokeMove(h, id, now);
        case ERestore(id) => RestoreMove(h, id, now);
        case ETrigger(id) => if h.backups[id - 1].registered { FailoverMove(h, id, now); }
      }
    } else if e.ETrigger? && ValidId(e.id) {
      assert !h.backups[e.id - 1].registered;
    }
  }

  lemma VmCallBase(h: Hv, e: Event, now: u64)
    requires Base(h) && (e.EStop? || e.ESuspend? || e.EResume?)
    ensures Base(Step(h, e, now))
  {
    if Exists(h, e.id) {
      match e {
        case EStop(id) => StopMove(h, id);
        case ESuspend(id) => SuspendMove(h, id);
        case EResume(id) => ResumeMove(h, id);
      }
    }
  }

  lemma StepBase(h: Hv, e: Event, now: u64)
    requires Base(h) && Early(h, e)
    ensures Base(Step(h, e, now))
  {
    assert Sized(h);
    hide Base, Poll, FailoverRegister, MemFault, DmaViolation;
    match e {
      case EMemFault(id, ipa, w) => MemFaultBase(h, id, ipa, w, now);
      case EDma(id, pa) => DmaBase(h, id, pa, now);
      case EIrq => QuietBase(h, IrqUnrouted(h));
      case EPoll => PollBase(h, now);
      case ERegister(_, _, _, _, _) => RegisterBase(h, e);
      case EStop(_) => VmCallBase(h, e, now);
      case ESuspend(_) => VmCallBase(h, e, now);
      case EResume(_) => VmCallBase(h, e, now);
      case _ => CommandBase(h, e, now);
    }
  }
}
