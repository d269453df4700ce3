/** What every entry point keeps in any state of the machine, whether its invariants
    hold or not and whether failovers succeed or fail. */
module HvFrames {
  import opened Words
  import opened Stage2Spec
  import opened VmSpec
  import opened HvSpec
  import opened HvInv

  /** A blocked VM is not running. */
  predicate CellContained(c: Cell) {
    Blocked(c.level) ==> c.state != Running
  }

  predicate Contained(h: Hv)
    requires Sized(h)
  {
    forall i :: 0 <= i < |h.vms| ==> CellContained(CellOf(h, i))
  }

  /** Revoked and stopped with the restart budget spent. */
  predicate Spent(c: Cell) {
    c.registered && c.count >= FAILOVER_MAX_ATTEMPTS && c.level == Revoked && c.state == Stopped
  }

  predicate LooseCell(c: Cell, d: Cell) {
    (CellContained(c) ==> CellContained(d)) && (Spent(c) ==> Spent(d))
  }

  /** Every VM owns the tables that its regions need. */
  predicate Furnished(h: Hv) {
    forall i :: 0 <= i < |h.vms| ==> Reserved(h.s2, h.vms[i].root, h.vms[i].kind, h.vms[i].mem)
  }

  predicate Evolved(h: Hv, g: Hv) {
    |g.vms| == |h.vms| && forall i :: 0 <= i < |h.vms| ==> SameIdentity(g.vms[i], h.vms[i])
  }

  predicate Gentle(h: Hv, g: Hv)
    requires Sized(h) && Sized(g)
  {
    && g.trust.up && Evolved(h, g)
    && (Furnished(h) ==> SameTables(g.s2, h.s2))
    && forall i :: 0 <= i < |h.vms| ==> LooseCell(CellOf(h, i), CellOf(g, i))
  }

  lemma GentleTwice(h: Hv, g: Hv, k: Hv)
    requires Sized(h) && Sized(g) && Sized(k) && Gentle(h, g) && Gentle(g, k)
    ensures Gentle(h, k)
  {
    hide LooseCell;
    if Furnished(h) {
      forall i | 0 <= i < |g.vms| ensures Reserved(g.s2, g.vms[i].root, g.vms[i].kind, g.vms[i].mem) {
        assert Reserved(h.s2, h.vms[i].root, h.vms[i].kind, h.vms[i].mem) && SameIdentity(g.vms[i], h.vms[i]);
      }
    }
    forall i | 0 <= i < |h.vms| ensures LooseCell(CellOf(h, i), CellOf(k, i)) {
      LooseTwice(CellOf(h, i), CellOf(g, i), CellOf(k, i));
    }
  }

  lemma LooseTwice(c: Cell, d: Cell, e: Cell)
    requires LooseCell(c, d) && LooseCell(d, e)
    ensures LooseCell(c, e)
  {
  }

  /** Nothing about VMs or tables changed, and only VM `id`'s records did. */
  lemma OneCell(h: Hv, g: Hv, id: int)
    requires Sized(h) && Sized(g) && g.trust.up && Exists(h, id) && Evolved(h, g)
    requires Furnished(h) ==> SameTables(g.s2, h.s2)
    requires forall j :: 0 <= j < |h.vms| && j != id - 1 ==> CellOf(g, j) == CellOf(h, j)
    requires LooseCell(CellOf(h, id - 1), CellOf(g, id - 1))
    ensures Gentle(h, g)
  {
  }

  lemma StopGentle(h: Hv, id: int)
    requires Sized(h) && h.trust.up && Exists(h, id)
    ensures Gentle(h, VmStop(h, id))
  {
    ClearedTables(h.s2, h.vms[id - 1].root, h.vms[id - 1].mem);
    OneCell(h, VmStop(h, id), id);
  }

  lemma RevokeGentle(h: Hv, id: int, now: u64)
    requires Sized(h) && h.trust.up && Exists(h, id)
    ensures Gentle(h, TrustRevoke(h, id, now).hv)
  {
    var g := TrustSet(h, id, Revoked, now);
    ClearedTables(g.s2, g.vms[id - 1].root, g.vms[id - 1].mem);
    OneCell(h, TrustRevoke(h, id, now).hv, id);
  }

  /** Stop and finalize take no table page, with or without an error. */
  lemma RebuildGentle(h: Hv, id: int)
    requires Sized(h) && h.trust.up && Exists(h, id)
    ensures var f := VmFinalize(VmStop(h, id), id);
            && Evolved(h, f.hv) && f.hv.trust == h.trust && f.hv.backups == h.backups
            && (Furnished(h) ==> SameTables(f.hv.s2, h.s2))
            && (forall j :: 0 <= j < |h.vms| && j != id - 1 ==> f.hv.vms[j] == h.vms[j])
            && f.hv.vms[id - 1].state == if f.err == Ok then Ready else Stopped
  {
    var vm, st := h.vms[id - 1], VmStop(h, id);
    assert st.s2 == h.s2 || st.s2 == Cleared(h.s2, vm.root, vm.mem);
    if Furnished(h) {
      assert Reserved(h.s2, vm.root, vm.kind, vm.mem);
      RebuildTakesNoPage(h.s2, vm.root, vm.kind, vm.mem);
      RebuildSame(h.s2, vm.root, vm.kind, vm.mem);
    }
    hide VmStop, Built, Cleared, Furnished;
    FinalizeParts(st, id);
  }

  lemma FinalizeParts(h: Hv, id: int)
    requires Sized(h) && Exists(h, id)
    ensures var f, vm := VmFinalize(h, id), h.vms[id - 1];
            && Evolved(h, f.hv) && f.hv.trust == h.trust && f.hv.backups == h.backups
            && f.hv.s2 == Built(h.s2, vm.root, vm.kind, vm.mem)
            && (forall j :: 0 <= j < |h.vms| && j != id - 1 ==> f.hv.vms[j] == h.vms[j])
            && f.hv.vms[id - 1].state == if f.err == Ok then Ready else vm.state
  {
    hide Built;
  }

  lemma RebuildSame(s: S2, r: int, kind: Kind, mem: seq<Region>)
    requires Reserved(s, r, kind, mem)
    ensures SameTables(Built(s, r, kind, mem), s)
  {
    BuiltWindows(s, r, kind, mem);
    assert s.gigs + VmGigs(r, kind, mem) == s.gigs;
    assert s.megs + VmMegs(r, kind, mem) == s.megs;
  }

  /** A restart ends running and degraded, or stopped. */
  lemma RestartCells(h: Hv, id: int, entry: u64, now: u64)
    requires Sized(h) && h.trust.up && Exists(h, id)
    ensures var g := Restart(h, id, entry, now).hv;
            && Evolved(h, g) && g.trust.up && (Furnished(h) ==> SameTables(g.s2, h.s2))
            && (forall j :: 0 <= j < |h.vms| && j != id - 1 ==> CellOf(g, j) == CellOf(h, j))
            && CellContained(CellOf(g, id - 1))
  {
    RebuildGentle(h, id);
    hide VmStop, VmFinalize, Reserved;
  }

  lemma FailoverGentle(h: Hv, id: int, now: u64)
    requires Sized(h) && h.trust.up && ValidId(id)
    ensures Gentle(h, DoFailover(h, id, now).hv)
  {
    hide Restart, TrustRevoke;
    Unchanged(h);
    if Exists(h, id) {
      var bd := h.backups[id - 1];
      if bd.count >= FAILOVER_MAX_ATTEMPTS {
        RevokeGentle(h, id, now);
      } else {
        var g := h.(backups := h.backups[id - 1 := bd.(count := bd.count + 1)]);
        RestartCells(g, id, bd.entry, now);
        OneCell(h, Restart(g, id, bd.entry, now).hv, id);
      }
    }
  }

  lemma QuarantineGentle(h: Hv, id: int, now: u64)
    requires Sized(h) && h.trust.up
    ensures Gentle(h, TrustQuarantine(h, id, now).hv)
  {
    hide DoFailover;
    Unchanged(h);
    if ValidId(id) && Exists(h, id) && !Blocked(h.trust.recs[id - 1].level) {
      var q := TrustSet(h, id, Quarantine, now);
      var q' := q.(trust := q.trust.(quarantines := Inc32(q.trust.quarantines)));
      var s := VmSuspend(q', id).hv;
      OneCell(h, s, id);
      FailoverGentle(s, id, now);
      GentleTwice(h, s, DoFailover(s, id, now).hv);
    }
  }

  lemma TriggerGentle(h: Hv, id: int, now: u64)
    requires Sized(h) && h.trust.up
    ensures Gentle(h, FailoverTrigger(h, id, now).hv)
  {
    hide DoFailover;
    Unchanged(h);
    if ValidId(id) { FailoverGentle(h, id, now); }
  }

  lemma RestoreGentle(h: Hv, id: int, now: u64)
    requires Sized(h) && h.trust.up
    ensures Gentle(h, TrustRestore(h, id, now).hv)
  {
    hide Gentle;
    Unchanged(h);
    if ValidId(id) && Exists(h, id) && h.trust.recs[id - 1].level == Quarantine {
      var g := TrustRestore(h, id, now).hv;
      assert CellOf(g, id - 1).level == Degraded;
      assert forall j :: 0 <= j < |h.vms| && j != id - 1 ==> CellOf(g, j) == CellOf(h, j);
      OneCell(h, g, id);
    }
  }

  lemma DegradeGentle(h: Hv, id: int, now: u64)
    requires Sized(h) && h.trust.up && ValidId(id) && h.trust.recs[id - 1].level != Revoked
    ensures Gentle(h, TrustSet(h, id, Degraded, now))
  {
    hide Gentle;
    if Exists(h, id) { OneCell(h, TrustSet(h, id, Degraded, now), id); } else { SameLevels(h, TrustSet(h, id, Degraded, now)); }
  }

  lemma ReportGentle(h: Hv, id: int, faultType: u32, detail: u64, now: u64)
    requires Sized(h) && h.trust.up
    ensures Gentle(h, ReportFault(h, id, faultType, detail, now).hv)
  {
    hide TrustQuarantine, Gentle;
    Unchanged(h);
    if ValidId(id) && h.trust.recs[id - 1].level != Revoked {
      var old' := h.trust.recs[id - 1];
      var rec := old'.(faults := Inc32(old'.faults), lastType := faultType, lastDetail := detail, lastFaultAt := now);
      var g := WithRec(h.(trust := h.trust.(total := Inc32(h.trust.total))), id, rec);
      SameLevels(h, g);
      QuarantineGentle(g, id, now);
      GentleTwice(h, g, TrustQuarantine(g, id, now).hv);
      if rec.level == Trusted {
        DegradeGentle(g, id, now);
        GentleTwice(h, g, TrustSet(g, id, Degraded, now));
      }
    }
  }

  /** Run states, levels and failover records are the same. */
  lemma SameLevels(h: Hv, g: Hv)
    requires Sized(h) && Sized(g) && g.trust.up && Evolved(h, g) && g.s2 == h.s2 && g.backups == h.backups
    requires forall i :: 0 <= i < |h.vms| ==>
               g.vms[i].state == h.vms[i].state && g.trust.recs[i].level == h.trust.recs[i].level
    ensures Gentle(h, g)
  {
  }

  lemma NotifyGentle(h: Hv, id: int, faultType: u32, detail: u64, now: u64)
    requires Sized(h) && h.trust.up
    ensures Gentle(h, NotifyFault(h, id, faultType, detail, now))
  {
    hide TrustQuarantine, Gentle;
    SameLevels(h, h);
    if h.ids.up && ValidId(id) {
      var b := RepeatStage(Evidence(h, id, faultType, detail, now), id, faultType, now);
      SameLevels(h, b);
      StormGentle(b, id, faultType, now);
      var c := StormStage(b, id, faultType, now);
      GentleTwice(h, b, c);
      GentleUp(b, c);
      SameLevels(c, RapidStage(c, id, faultType, now));
      GentleTwice(h, c, RapidStage(c, id, faultType, now));
    }
  }

  lemma GentleUp(h: Hv, g: Hv)
    requires Sized(h) && Sized(g) && Gentle(h, g)
    ensures g.trust.up && |g.vms| == |h.vms|
  {
  }

  lemma StormGentle(h: Hv, id: int, faultType: u32, now: u64)
    requires Sized(h) && h.trust.up && ValidId(id)
    ensures Gentle(h, StormStage(h, id, faultType, now))
  {
    hide TrustQuarantine, Gentle;
    var m := h.ids.mon[id - 1];
    var r := StormStage(h, id, faultType, now);
    if WindowExpired(m, now) || Inc32(m.faults) != STORM_FAULTS + 1 {
      SameLevels(h, r);
    } else {
      var count := Inc32(m.faults);
      var g := Log(Anomaly(WithMon(h, id, m.(faults := count))), id, EvStorm, Alert, faultType, count, now);
      SameLevels(h, g);
      EnforceGentle(g, id, faultType, count, now);
      GentleTwice(h, g, r);
    }
  }

  lemma EnforceGentle(h: Hv, id: int, faultType: u32, count: u32, now: u64)
    requires Sized(h) && h.trust.up && ValidId(id)
    ensures Gentle(h, Enforce(h, id, faultType, count, now))
  {
    hide TrustQuarantine, Gentle;
    var q, r := TrustQuarantine(h, id, now).hv, Enforce(h, id, faultType, count, now);
    QuarantineGentle(h, id, now);
    GentleUp(h, q);
    SameLevels(h, h);
    if !Blocked(TrustGet(h, id)) {
      SameLevels(q, r);
      GentleTwice(h, q, r);
    }
  }

  lemma FeedGentle(h: Hv, id: int, faultType: u32, detail: u64, now: u64)
    requires Sized(h) && h.trust.up
    ensures Gentle(h, Feed(h, id, faultType, detail, now))
  {
    hide ReportFault, NotifyFault, Gentle;
    SameLevels(h, h);
    var g := ReportFault(h, id, faultType, detail, now).hv;
    ReportGentle(h, id, faultType, detail, now);
    GentleUp(h, g);
    NotifyGentle(g, id, faultType, detail, now);
    GentleTwice(h, g, NotifyFault(g, id, faultType, detail, now));
  }

  lemma FaultGentle(h: Hv, e: Event, now: u64)
    requires Sized(h) && h.trust.up && (e.EMemFault? || e.EDma?)
    ensures Gentle(h, Step(h, e, now))
  {
    hide Feed, Gentle;
    SameLevels(h, h);
    var inc := Inc32(h.stats.total);
    match e {
      case EMemFault(id, ipa, w) =>
        var g := h.(stats := h.stats.(mem := Inc32(h.stats.mem), total := inc));
        var detail := if w && ipa < 0x8000_0000_0000_0000 then ipa + 0x8000_0000_0000_0000 else ipa;
        SameLevels(h, g);
        FeedGentle(g, id, FAULT_MEM, detail, now);
        GentleTwice(h, g, Feed(g, id, FAULT_MEM, detail, now));
      case EDma(id, pa) =>
        var g := h.(stats := h.stats.(dma := Inc32(h.stats.dma), total := inc));
        SameLevels(h, g);
        FeedGentle(g, id, FAULT_DMA, pa, now);
        GentleTwice(h, g, Feed(g, id, FAULT_DMA, pa, now));
    }
  }

  lemma PromoteOneGentle(h: Hv, id: int, now: u64)
    requires Sized(h) && h.trust.up && ValidId(id)
    ensures Gentle(h, PromoteOne(h, id, now))
  {
    SameLevels(h, h);
    if Promotable(h.trust.recs[id - 1], now) {
      if Exists(h, id) { OneCell(h, PromoteOne(h, id, now), id); } else { SameLevels(h, PromoteOne(h, id, now)); }
    }
  }

  lemma {:induction false} PromoteGentle(h: Hv, n: nat, now: u64)
    requires Sized(h) && h.trust.up && n <= MAX_VMS
    ensures Gentle(h, Promote(h, n, now))
  {
    hide Gentle, PromoteOne;
    SameLevels(h, h);
    if n > 0 {
      var g := Promote(h, n - 1, now);
      PromoteGentle(h, n - 1, now);
      GentleUp(h, g);
      PromoteOneGentle(g, n, now);
      GentleTwice(h, g, PromoteOne(g, n, now));
    }
  }

  lemma PollGentle(h: Hv, now: u64)
    requires Sized(h) && h.trust.up
    ensures Gentle(h, Poll(h, now))
  {
    hide Gentle, Promote, PollScan;
    SameLevels(h, h);
    if h.ids.up {
      var a := PollScan(h, MAX_VMS, now);
      var b := Promote(a, MAX_VMS, now);
      SameLevels(h, a);
      PromoteGentle(a, MAX_VMS, now);
      GentleTwice(h, a, b);
      GentleUp(a, b);
      SameLevels(b, Poll(h, now));
      GentleTwice(h, b, Poll(h, now));
    }
  }

  // ---------- every event ----------

  predicate ResumesBlocked(h: Hv, e: Event)
    requires Sized(h)
  {
    e.EResume? && Exists(h, e.id) && h.vms[e.id - 1].state == Suspended && Blocked(h.trust.recs[e.id - 1].level)
  }

  lemma OperatorGentle(h: Hv, e: Event, now: u64)
    requires Sized(h) && h.trust.up && (e.EQuarantine? || e.ERevoke? || e.ERestore? || e.ETrigger?)
    ensures Gentle(h, Step(h, e, now))
  {
    hide Gentle, TrustQuarantine, TrustRestore, FailoverTrigger, VmStop;
    SameLevels(h, h);
    match e {
      case EQuarantine(id) => QuarantineGentle(h, id, now);
      case ERevoke(id) => if ValidId(id) && Exists(h, id) { RevokeGentle(h, id, now); }
      case ERestore(id) => RestoreGentle(h, id, now);
      case ETrigger(id) => TriggerGentle(h, id, now);
    }
  }

  /** From any state: the VMs keep their identity, no table page is taken where every VM
      owns its tables, only resuming a blocked VM lets one run, and only registering a
      spent VM anew brings it back. */
  predicate Tame(h: Hv, e: Event, g: Hv)
    requires Sized(h) && Sized(g)
  {
    && g.trust.up && Evolved(h, g) && (Furnished(h) ==> SameTables(g.s2, h.s2))
    && (Contained(h) && !ResumesBlocked(h, e) ==> Contained(g))
    && forall i :: 0 <= i < |h.vms| && Spent(CellOf(h, i)) && !(e.ERegister? && e.id == i + 1) ==> Spent(CellOf(g, i))
  }

  lemma GentleTame(h: Hv, e: Event, g: Hv)
    requires Sized(h) && Sized(g) && Gentle(h, g)
    ensures Tame(h, e, g)
  {
    forall i | 0 <= i < |h.vms| ensures LooseCell(CellOf(h, i), CellOf(g, i)) { }
  }

  lemma ResumeTame(h: Hv, id: int)
    requires Sized(h) && h.trust.up && Exists(h, id)
    ensures Tame(h, EResume(id), VmResume(h, id).hv)
    ensures Contained(h) ==> (Contained(VmResume(h, id).hv) <==> !ResumesBlocked(h, EResume(id)))
  {
    var g := VmResume(h, id).hv;
    forall i | 0 <= i < |h.vms| && i != id - 1 ensures CellOf(g, i) == CellOf(h, i) { }
    var c := CellOf(h, id - 1);
    assert CellOf(g, id - 1) == if c.state == Suspended then c.(state := Running) else c;
    assert ResumesBlocked(h, EResume(id)) ==> !CellContained(CellOf(g, id - 1));
  }

  lemma RegisterTame(h: Hv, e: Event)
    requires Sized(h) && h.trust.up && e.ERegister?
    ensures Tame(h, e, FailoverRegister(h, e.id, e.pa, e.live, e.size, e.entry).hv)
  {
    var g := FailoverRegister(h, e.id, e.pa, e.live, e.size, e.entry).hv;
    forall i | 0 <= i < |h.vms| ensures CellContained(CellOf(g, i)) == CellContained(CellOf(h, i)) { }
    forall i | 0 <= i < |h.vms| && i != e.id - 1 ensures CellOf(g, i) == CellOf(h, i) { }
  }

  lemma VmCallTame(h: Hv, e: Event, now: u64)
    requires Sized(h) && h.trust.up && (e.EStop? || e.ESuspend? || e.EResume? || e.ERegister? || e.EIrq?)
    ensures Tame(h, e, Step(h, e, now))
  {
    hide Tame, Gentle, VmStop, FailoverRegister, VmSuspend, VmResume;
    SameLevels(h, h);
    GentleTame(h, e, h);
    if e.ERegister? {
      RegisterTame(h, e);
    } else if e.EIrq? {
      SameLevels(h, Step(h, e, now));
      GentleTame(h, e, Step(h, e, now));
    } else if Exists(h, e.id) {
      if e.EResume? {
        ResumeTame(h, e.id);
      } else {
        StopGentle(h, e.id);
        SuspendGentle(h, e.id);
        GentleTame(h, e, Step(h, e, now));
      }
    }
  }

  lemma SuspendGentle(h: Hv, id: int)
    requires Sized(h) && h.trust.up && Exists(h, id)
    ensures Gentle(h, VmSuspend(h, id).hv)
  {
    OneCell(h, VmSuspend(h, id).hv, id);
  }

  lemma StepTame(h: Hv, e: Event, now: u64)
    requires Sized(h) && h.trust.up
    ensures Tame(h, e, Step(h, e, now))
  {
    hide Tame, Gentle, Poll;
    if e.EMemFault? || e.EDma? {
      FaultGentle(h, e, now);
      GentleTame(h, e, Step(h, e, now));
    } else if e.EPoll? {
      PollGentle(h, now);
      GentleTame(h, e, Step(h, e, now));
    } else if e.EQuarantine? || e.ERevoke? || e.ERestore? || e.ETrigger? {
      OperatorGentle(h, e, now);
      GentleTame(h, e, Step(h, e, now));
    } else {
      VmCallTame(h, e, now);
    }
  }

  lemma TameFurnished(h: Hv, e: Event, g: Hv)
    requires Sized(h) && Sized(g) && Tame(h, e, g) && Furnished(h)
    ensures Furnished(g)
  {
  }

  lemma Unchanged(h: Hv)
    requires Sized(h) && h.trust.up
    ensures Gentle(h, h)
  {
  }
}
