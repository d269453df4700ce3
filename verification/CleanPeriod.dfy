/** When a degraded VM is trusted again: the clean period over whole runs, measured from
    the faults themselves, and what else the trust records tell of them. */
module CleanPeriod {
  import opened Words
  import opened VmSpec
  import opened HvSpec
  import opened HvInv
  import opened HvBase
  import opened HvCells
  import opened HvRuns
  import opened Detectors
  import opened HvMonitor

  /** The last fault on record is the same, and a change of level has its time on record. */
  predicate Dated(r: TrustRec, s: TrustRec, now: u64) {
    && s.lastFaultAt == r.lastFaultAt && s.lastType == r.lastType && s.lastDetail == r.lastDetail
    && (s.changedAt == r.changedAt || s.changedAt == now)
    && (s.level != r.level ==> s.changedAt == now)
  }

  predicate AllDated(h: Hv, g: Hv, now: u64)
    requires Sized(h) && Sized(g)
  {
    && g.trust.total == h.trust.total && g.trust.up == h.trust.up
    && forall i :: 0 <= i < MAX_VMS ==> Dated(h.trust.recs[i], g.trust.recs[i], now)
  }

  lemma DatedTwice(h: Hv, g: Hv, k: Hv, now: u64)
    requires Sized(h) && Sized(g) && Sized(k) && AllDated(h, g, now) && AllDated(g, k, now)
    ensures AllDated(h, k, now)
  {
  }

  lemma SetDated(h: Hv, id: int, level: Level, now: u64)
    requires Sized(h)
    ensures AllDated(h, TrustSet(h, id, level, now), now)
  {
  }

  lemma SameDated(h: Hv, g: Hv, k: Hv, m: Hv, now: u64)
    requires Sized(h) && Sized(g) && Sized(k) && Sized(m)
    requires g.trust == h.trust && AllDated(g, k, now)
    requires m.trust.recs == k.trust.recs && m.trust.up == k.trust.up && m.trust.total == k.trust.total
    ensures AllDated(h, m, now)
  {
  }

  lemma RestartDated(h: Hv, id: int, entry: u64, now: u64)
    requires Sized(h) && Exists(h, id)
    ensures AllDated(h, Restart(h, id, entry, now).hv, now)
  {
    hide Built, Cleared;
    var f := VmFinalize(VmStop(h, id), id);
    if f.err == Ok { LaunchDated(f.hv, id, entry, now); }
  }

  lemma LaunchDated(h: Hv, id: int, entry: u64, now: u64)
    requires Sized(h) && Exists(h, id)
    ensures AllDated(h, Launch(h, id, entry, now).hv, now)
  {
    var vcpus := h.vms[id - 1].vcpus;
    var g := if |vcpus| > 0 then SetEntry(h, vcpus[0], entry) else h;
    SetDated(VmStart(g, id).hv, id, Degraded, now);
  }

  lemma FailoverDated(h: Hv, id: int, now: u64)
    requires Sized(h) && ValidId(id)
    ensures AllDated(h, DoFailover(h, id, now).hv, now)
  {
    hide Restart, Cleared;
    if Exists(h, id) {
      var bd := h.backups[id - 1];
      if bd.count < FAILOVER_MAX_ATTEMPTS {
        RestartDated(h.(backups := h.backups[id - 1 := bd.(count := bd.count + 1)]), id, bd.entry, now);
      }
      SetDated(h, id, Revoked, now);
    }
  }

  lemma QuarantineDated(h: Hv, id: int, now: u64)
    requires Sized(h)
    ensures AllDated(h, TrustQuarantine(h, id, now).hv, now)
  {
    hide DoFailover, AllDated;
    Still(h, now);
    if ValidId(id) && Exists(h, id) && !Blocked(h.trust.recs[id - 1].level) {
      var q := TrustSet(h, id, Quarantine, now);
      var q' := q.(trust := q.trust.(quarantines := Inc32(q.trust.quarantines)));
      var s := VmSuspend(q', id).hv;
      SetDated(h, id, Quarantine, now);
      SameDated(h, h, q, s, now);
      FailoverDated(s, id, now);
      DatedTwice(h, s, DoFailover(s, id, now).hv, now);
    }
  }

  lemma Still(h: Hv, now: u64)
    requires Sized(h)
    ensures AllDated(h, h, now)
  {
  }

  // ---------- one fault ----------

  /** The record of a fault that was counted. */
  function Reported(rec: TrustRec, f: Detectors.Entry): TrustRec {
    rec.(faults := Inc32(rec.faults), lastType := f.faultType, lastDetail := f.detail, lastFaultAt := f.time)
  }

  /** The trust engine with this fault counted. */
  function Counted(h: Hv, id: int, f: Detectors.Entry): (g: Hv)
    requires Sized(h) && ValidId(id)
    ensures Sized(g)
  {
    h.(trust := h.trust.(total := (h.trust.total + 1) % 0x1_0000_0000,
                         recs := h.trust.recs[id - 1 := Reported(h.trust.recs[id - 1], f)]))
  }

  /** A fault counts unless the VM is revoked. */
  predicate Counts(h: Hv, id: int)
    requires Sized(h)
  {
    ValidId(id) && h.trust.up && h.trust.recs[id - 1].level != Revoked
  }

  lemma ReportDated(h: Hv, id: int, f: Detectors.Entry)
    requires Sized(h) && ValidId(id)
    ensures AllDated(if Counts(h, id) then Counted(h, id, f) else h, ReportFault(h, id, f.faultType, f.detail, f.time).hv, f.time)
  {
    hide TrustQuarantine, AllDated;
    Still(h, f.time);
    if Counts(h, id) {
      var g := Counted(h, id, f);
      Still(g, f.time);
      QuarantineDated(g, id, f.time);
      SetDated(g, id, Degraded, f.time);
    }
  }

  lemma NotifyDated(h: Hv, id: int, faultType: u32, detail: u64, now: u64)
    requires Sized(h)
    ensures AllDated(h, NotifyFault(h, id, faultType, detail, now), now)
  {
    hide TrustQuarantine, AllDated;
    Still(h, now);
    if h.ids.up && ValidId(id) {
      var b := RepeatStage(Evidence(h, id, faultType, detail, now), id, faultType, now);
      var c := StormStage(b, id, faultType, now);
      StormDated(b, id, faultType, now);
      SameDated(h, b, c, RapidStage(c, id, faultType, now), now);
    }
  }

  lemma StormDated(h: Hv, id: int, faultType: u32, now: u64)
    requires Sized(h) && ValidId(id)
    ensures AllDated(h, StormStage(h, id, faultType, now), now)
  {
    hide TrustQuarantine, AllDated;
    var m, r := h.ids.mon[id - 1], StormStage(h, id, faultType, now);
    var count := Inc32(m.faults);
    var g := Log(Anomaly(WithMon(h, id, m.(faults := count))), id, EvStorm, Alert, faultType, count, now);
    Still(h, now);
    QuarantineDated(g, id, now);
    SameDated(h, h, h, g, now);
    var q := TrustQuarantine(g, id, now).hv;
    SameDated(h, g, q, q, now);
    if !WindowExpired(m, now) && count == STORM_FAULTS + 1 && !Blocked(TrustGet(g, id)) {
      SameDated(h, h, q, r, now);
    } else {
      SameDated(h, h, h, r, now);
    }
  }

  lemma FeedDated(h: Hv, g: Hv, id: int, f: Detectors.Entry)
    requires Sized(h) && Sized(g) && g == h.(stats := g.stats)
    ensures AllDated(if Counts(h, id) then Counted(h, id, f) else h, Feed(g, id, f.faultType, f.detail, f.time), f.time)
  {
    hide ReportFault, NotifyFault, AllDated;
    Still(h, f.time);
    if ValidId(id) {
      var k := ReportFault(g, id, f.faultType, f.detail, f.time).hv;
      var c, d := if Counts(h, id) then Counted(h, id, f) else h, if Counts(g, id) then Counted(g, id, f) else g;
      ReportDated(g, id, f);
      SameDated(c, d, k, k, f.time);
      NotifyDated(k, id, f.faultType, f.detail, f.time);
      DatedTwice(c, k, NotifyFault(k, id, f.faultType, f.detail, f.time), f.time);
    } else {
      SameDated(h, h, h, g, f.time);
    }
  }

  // ---------- every event ----------

  /** The trust engine with this event's fault counted, if it is one that counts. */
  function Charge(h: Hv, e: Event, now: u64): (g: Hv)
    requires Sized(h)
    ensures Sized(g)
  {
    if IsFault(e) && h.stats.up && Counts(h, e.id) then Counted(h, e.id, EntryOf(e, now)) else h
  }

  lemma FaultDated(h: Hv, e: Event, now: u64)
    requires Sized(h) && IsFault(e)
    ensures AllDated(Charge(h, e, now), Step(h, e, now), now)
  {
    hide Feed, AllDated, Counted;
    Still(h, now);
    if h.stats.up {
      assert Step(h, e, now) == Feed(Charged(h, e), e.id, EntryOf(e, now).faultType, EntryOf(e, now).detail, now);
      hide Step;
      FeedDated(h, Charged(h, e), e.id, EntryOf(e, now));
    }
  }

  lemma {:induction false} PromoteDated(h: Hv, n: nat, now: u64)
    requires Sized(h) && n <= MAX_VMS
    ensures AllDated(h, Promote(h, n, now), now)
  {
    hide AllDated, PromoteOne;
    Still(h, now);
    if n > 0 && h.trust.up {
      PromoteDated(h, n - 1, now);
      PromoteOneDated(Promote(h, n - 1, now), n, now);
      DatedTwice(h, Promote(h, n - 1, now), Promote(h, n, now), now);
    }
  }

  lemma PromoteOneDated(h: Hv, id: int, now: u64)
    requires Sized(h) && ValidId(id)
    ensures AllDated(h, PromoteOne(h, id, now), now)
  {
  }

  lemma PollDated(h: Hv, now: u64)
    requires Sized(h)
    ensures AllDated(h, Poll(h, now), now)
  {
    hide AllDated, PollScan, Promote;
    Still(h, now);
    if h.ids.up {
      var a := PollScan(h, MAX_VMS, now);
      PromoteDated(a, MAX_VMS, now);
      SameDated(h, a, Promote(a, MAX_VMS, now), Poll(h, now), now);
    }
  }

  lemma RevokeDated(h: Hv, id: int, now: u64)
    requires Sized(h)
    ensures AllDated(h, TrustRevoke(h, id, now).hv, now)
  {
    hide Cleared, AllDated;
    Still(h, now);
    SetDated(h, id, Revoked, now);
    if ValidId(id) && Exists(h, id) { SameDated(h, h, TrustSet(h, id, Revoked, now), TrustRevoke(h, id, now).hv, now); }
  }

  lemma RestoreDated(h: Hv, id: int, now: u64)
    requires Sized(h)
    ensures AllDated(h, TrustRestore(h, id, now).hv, now)
  {
  }

  lemma CommandDated(h: Hv, e: Event, now: u64)
    requires Sized(h) && (e.EQuarantine? || e.ERevoke? || e.ERestore? || e.ETrigger?)
    ensures AllDated(h, Step(h, e, now), now)
  {
    hide TrustQuarantine, TrustRevoke, TrustRestore, DoFailover, AllDated;
    Still(h, now);
    QuarantineDated(h, e.id, now);
    RevokeDated(h, e.id, now);
    RestoreDated(h, e.id, now);
    if ValidId(e.id) { FailoverDated(h, e.id, now); }
  }

  lemma StepDated(h: Hv, e: Event, now: u64)
    requires Sized(h)
    ensures AllDated(Charge(h, e, now), Step(h, e, now), now)
  {
    hide MemFault, DmaViolation, Poll, TrustQuarantine, TrustRevoke, TrustRestore, FailoverTrigger, Counted, Cleared;
    if IsFault(e) {
      FaultDated(h, e, now);
    } else if e.EPoll? {
      PollDated(h, now);
    } else if e.EQuarantine? || e.ERevoke? || e.ERestore? || e.ETrigger? {
      CommandDated(h, e, now);
    } else {
      Still(h, now);
    }
  }

  /** Any event that changes a VM's level has its time on record. */
  lemma ChangeDated(h: Hv, e: Event, now: u64, i: int)
    requires Sized(h) && 0 <= i < MAX_VMS
    ensures var r, s := h.trust.recs[i], Step(h, e, now).trust.recs[i];
            (s.level != r.level ==> s.changedAt == now) && (s.changedAt == r.changedAt || s.changedAt == now)
  {
    hide Step;
    StepDated(h, e, now);
  }

  // ---------- whole runs ----------

  /** The last fault of this VM that found it not revoked. */
  function LastCounted(h: Hv, run: Run, id: int): Option<Detectors.Entry>
    requires Sized(h)
  {
    if run == [] then None
    else
      var init, last := run[..|run| - 1], run[|run| - 1];
      if FaultOf(last.0, id) && Counts(After(h, init), id) then Some(EntryOf(last.0, last.1))
      else LastCounted(h, init, id)
  }

  /** How many faults of any VM found it not revoked. */
  function CountedFaults(h: Hv, run: Run): nat
    requires Sized(h)
  {
    if run == [] then 0
    else
      var init, last := run[..|run| - 1], run[|run| - 1];
      CountedFaults(h, init) + OneIf(After(h, init), last.0)
  }

  function OneIf(h: Hv, e: Event): nat
    requires Sized(h)
  {
    if IsFault(e) && Counts(h, e.id) then 1 else 0
  }

  predicate OnFile(h: Hv, g: Hv, i: int, last: Option<Detectors.Entry>)
    requires Sized(h) && Sized(g) && 0 <= i < MAX_VMS
  {
    var r := g.trust.recs[i];
    Detectors.Entry(r.lastFaultAt, r.lastType, r.lastDetail)
    == match last
       case Some(f) => f
       case None => Detectors.Entry(h.trust.recs[i].lastFaultAt, h.trust.recs[i].lastType, h.trust.recs[i].lastDetail)
  }

  lemma OnFileStep(h: Hv, g: Hv, e: Event, now: u64, i: int, last: Option<Detectors.Entry>)
    requires Sized(h) && Sized(g) && g.stats.up && 0 <= i < MAX_VMS && OnFile(h, g, i, last)
    ensures OnFile(h, Step(g, e, now), i,
                   if FaultOf(e, i + 1) && Counts(g, i + 1) then Some(EntryOf(e, now)) else last)
  {
    hide Step;
    StepDated(g, e, now);
    assert Dated(Charge(g, e, now).trust.recs[i], Step(g, e, now).trust.recs[i], now);
  }

  /** Over every run the trust record tells time, type and address of that fault. */
  lemma {:induction false} LastFaultOnFile(h: Hv, run: Run, i: int)
    requires Sized(h) && h.stats.up && 0 <= i < MAX_VMS
    ensures After(h, run).stats.up && OnFile(h, After(h, run), i, LastCounted(h, run, i + 1))
  {
    if run != [] {
      hide Step, OnFile;
      var init, last := run[..|run| - 1], run[|run| - 1];
      LastFaultOnFile(h, init, i);
      StatsUp(After(h, init), last.0, last.1);
      OnFileStep(h, After(h, init), last.0, last.1, i, LastCounted(h, init, i + 1));
    }
  }

  /** n more faults have been counted since the total was `total`. */
  predicate Totals(total: u32, g: Hv, n: nat) {
    g.stats.up && g.trust.total == (total + n) % 0x1_0000_0000
  }

  lemma TotalStep(total: u32, g: Hv, e: Event, now: u64, n: nat)
    requires Sized(g) && Totals(total, g, n)
    ensures Totals(total, Step(g, e, now), n + OneIf(g, e))
  {
    hide Step;
    StepDated(g, e, now);
    StatsUp(g, e, now);
    IncSum(total, n);
  }

  /** Over every run the total of the trust engine counts those faults. */
  lemma {:induction false} TotalCounts(h: Hv, run: Run)
    requires Sized(h) && h.stats.up
    ensures Totals(h.trust.total, After(h, run), CountedFaults(h, run))
  {
    if run == [] {
      DivMod(h.trust.total, 0x1_0000_0000, 0, h.trust.total);
    } else {
      hide Step, Totals, OneIf;
      var init, last := run[..|run| - 1], run[|run| - 1];
      TotalCounts(h, init);
      TotalStep(h.trust.total, After(h, init), last.0, last.1, CountedFaults(h, init));
    }
  }

  // ---------- promotion ----------

  /** When the VM's last fault was, after this run. */
  function LastFaultTime(h: Hv, run: Run, i: int): u64
    requires Sized(h) && 0 <= i < MAX_VMS
  {
    match LastCounted(h, run, i + 1)
    case Some(f) => f.time
    case None => h.trust.recs[i].lastFaultAt
  }

  /** After any run, a poll trusts a degraded VM again, with its faults forgotten, exactly
      if its last fault is not in the future and at least 30 seconds ago. */
  lemma PromotedExactly(h: Hv, run: Run, now: u64, i: int)
    requires Sized(h) && h.trust.up && Watching(h) && 0 <= i < |h.vms|
    ensures var g, t := After(h, run), LastFaultTime(h, run, i);
            var k := Step(g, EPoll, now);
            && |k.vms| == |g.vms| == |h.vms|
            && (g.trust.recs[i].level == Degraded ==>
                  if t <= now && now - t >= 30_000_000 then k.trust.recs[i].level == Trusted && k.trust.recs[i].faults == 0
                  else k.trust.recs[i].level == Degraded && k.trust.recs[i].faults == g.trust.recs[i].faults)
  {
    hide After, Step, AllAligned;
    var g := After(h, run);
    LastFaultOnFile(h, run, i);
    StaysWatching(h, run);
    RunTame(h, run);
    UnitStep(g, EPoll, now, i);
    assert CellOf(Step(g, EPoll, now), i).level == Step(g, EPoll, now).trust.recs[i].level;
    assert CellOf(Step(g, EPoll, now), i).faults == Step(g, EPoll, now).trust.recs[i].faults;
  }

  /** Nothing but such a poll ever makes a VM trusted that was not. */
  lemma OnlyPollsTrust(h: Hv, e: Event, now: u64, i: int)
    requires Sized(h) && 0 <= i < |h.vms| && h.trust.recs[i].level != Trusted
    ensures var g := Step(h, e, now);
            && |g.vms| == |h.vms|
            && (g.trust.recs[i].level == Trusted ==> e.EPoll? && h.ids.up && h.trust.up && h.trust.recs[i].level == Degraded)
  {
    hide Step, UFailover, StormNow, AllAligned;
    UnitStep(h, e, now, i);
    var p, u := SettingOf(h, i), UnitOf(h, i);
    NotTrusted(p, u);
    NotTrusted(p, u.(cell := u.cell.(faults := Inc32(u.cell.faults))));
    hide UQuarantine;
    NotTrusted(p, UReport(p, u));
    assert CellOf(Step(h, e, now), i).level == Step(h, e, now).trust.recs[i].level;
  }

  lemma NotTrusted(p: Setting, u: Unit)
    requires u.cell.level != Trusted
    ensures UQuarantine(p, u).cell.level != Trusted && UFailover(p, u).cell.level != Trusted
  {
  }
}
