/** Where vCPUs start: what every event leaves of the vCPUs there are, what it gives to
    the vCPUs of a VM that it restarts, and where the entry point of a restart comes from. */
module HvVcpus {
  import opened Words
  import opened VmSpec
  import opened HvSpec
  import opened HvInv
  import opened HvBase
  import opened HvCells
  import opened HvRuns

  /** vCPUs are never given back; those there are may be stopped, and new ones do not run. */
  predicate Lasting(h: Hv, g: Hv) {
    && |h.vcpus| <= |g.vcpus|
    && (forall c :: 0 <= c < |h.vcpus| ==> g.vcpus[c] == h.vcpus[c] || g.vcpus[c] == h.vcpus[c].(state := VStopped))
    && (forall c :: |h.vcpus| <= c < |g.vcpus| ==> g.vcpus[c].state != VRunning)
  }

  /** New vCPUs, one for each core of the VM: the first starts at the backup's entry with
      no device tree, the others where the VM's own image starts. */
  predicate Fresh(g: Hv, i: int, entry: u64)
    requires Sized(g) && 0 <= i < |g.vms|
  {
    var vm := g.vms[i];
    && |vm.vcpus| == (if vm.kind == Android then 2 else 1)
    && forall v :: 0 <= v < |vm.vcpus| ==>
         g.vcpus[vm.vcpus[v]] == Vcpu(vm.id, v, VReady, if v == 0 then entry else vm.entry, if v == 0 then 0 else vm.dtb)
  }

  /** The registrations are the same but for the restart counts. */
  predicate SameBackups(h: Hv, g: Hv)
    requires Sized(h) && Sized(g)
  {
    forall j :: 0 <= j < MAX_VMS ==> g.backups[j] == h.backups[j].(count := g.backups[j].count)
  }

  /** From h to g VM i was restarted with new vCPUs, or went on with its own, or does not run. */
  predicate Refitted(h: Hv, g: Hv, i: int)
    requires Sized(h) && Sized(g) && 0 <= i < |h.vms|
  {
    && |g.vms| == |h.vms| && Lasting(h, g) && SameBackups(h, g) && h.backups[i].count <= g.backups[i].count
    && (g.vms[i].state == Running ==>
          if h.backups[i].count < g.backups[i].count then Fresh(g, i, h.backups[i].entry)
          else g.vms[i] == h.vms[i] && g.vcpus == h.vcpus)
  }

  lemma RefittedTwice(h: Hv, g: Hv, k: Hv, i: int)
    requires Sized(h) && Sized(g) && Sized(k) && 0 <= i < |h.vms| && Refitted(h, g, i) && Refitted(g, k, i)
    ensures Refitted(h, k, i)
  {
  }

  /** Neither VMs, vCPUs nor registrations changed. */
  predicate SameMachine(h: Hv, g: Hv) {
    g.vms == h.vms && g.vcpus == h.vcpus && g.backups == h.backups
  }

  lemma Untouched(h: Hv, g: Hv, k: Hv, m: Hv, i: int)
    requires Sized(h) && Sized(g) && Sized(k) && Sized(m) && 0 <= i < |h.vms|
    requires SameMachine(h, g) && Refitted(g, k, i) && SameMachine(k, m)
    ensures Refitted(h, m, i)
  {
  }

  // ---------- stop, finalize, launch ----------

  lemma {:induction false} StoppedExactly(vcpus: seq<Vcpu>, which: seq<nat>, c: nat)
    requires (forall j :: 0 <= j < |which| ==> which[j] < |vcpus|) && c < |vcpus|
    ensures StopVcpus(vcpus, which)[c] == if c in which then vcpus[c].(state := VStopped) else vcpus[c]
  {
    if which != [] { StoppedExactly(vcpus, which[..|which| - 1], c); }
  }

  /** Stopping a VM that is not stopped stops its vCPUs and no other. */
  lemma StopVmStops(h: Hv, id: int, c: nat)
    requires Sized(h) && Exists(h, id) && c < |h.vcpus| && h.vms[id - 1].state != Stopped
    ensures var g := VmStop(h, id);
            && |g.vcpus| == |h.vcpus|
            && g.vcpus[c] == if c in h.vms[id - 1].vcpus then h.vcpus[c].(state := VStopped) else h.vcpus[c]
  {
    hide Cleared;
    StoppedExactly(h.vcpus, h.vms[id - 1].vcpus, c);
  }

  lemma StopLasting(h: Hv, id: int)
    requires Sized(h) && Exists(h, id)
    ensures var g := VmStop(h, id);
            && Lasting(h, g) && |g.vcpus| == |h.vcpus| && g.backups == h.backups && |g.vms| == |h.vms|
            && g.vms[id - 1].state == Stopped
            && g.vms[id - 1] == h.vms[id - 1].(state := Stopped)
  {
    hide Cleared;
    if h.vms[id - 1].state != Stopped {
      forall c | 0 <= c < |h.vcpus|
        ensures VmStop(h, id).vcpus[c] == h.vcpus[c] || VmStop(h, id).vcpus[c] == h.vcpus[c].(state := VStopped)
      {
        StopVmStops(h, id, c);
      }
    }
  }

  /** Finalizing appends the VM's vCPUs, or those that are left, in their reset state. */
  lemma FinalizeFresh(h: Hv, id: int)
    requires Sized(h) && Exists(h, id)
    ensures var f, vm := VmFinalize(h, id), h.vms[id - 1];
            var k := f.hv.vms[id - 1];
            && |f.hv.vms| == |h.vms| && f.hv.backups == h.backups
            && h.vcpus <= f.hv.vcpus && (forall c :: |h.vcpus| <= c < |f.hv.vcpus| ==> f.hv.vcpus[c].state == VReady)
            && k == vm.(state := k.state, vcpus := k.vcpus)
            && (f.err != Ok ==> k.state == vm.state)
            && (f.err == Ok ==>
                  && k.state == Ready && |k.vcpus| == (if vm.kind == Android then 2 else 1)
                  && |f.hv.vcpus| == |h.vcpus| + |k.vcpus|
                  && forall v :: 0 <= v < |k.vcpus| ==>
                       k.vcpus[v] == |h.vcpus| + v && f.hv.vcpus[|h.vcpus| + v] == Vcpu(vm.id, v, VReady, vm.entry, vm.dtb))
  {
    hide Built;
  }

  lemma LaunchFresh(f: Hv, id: int, entry: u64, now: u64)
    requires Sized(f) && Exists(f, id) && f.vms[id - 1].state == Ready && |f.vms[id - 1].vcpus| > 0
    ensures var r, c := Launch(f, id, entry, now), f.vms[id - 1].vcpus[0];
            && r.err == Ok && r.hv.vms == f.vms[id - 1 := f.vms[id - 1].(state := Running)] && r.hv.backups == f.backups
            && r.hv.vcpus == f.vcpus[c := f.vcpus[c].(elr := entry, x0 := 0)]
  {
  }

  lemma RestartFresh(h: Hv, id: int, entry: u64, now: u64)
    requires Sized(h) && Exists(h, id)
    ensures var r := Restart(h, id, entry, now);
            && |r.hv.vms| == |h.vms| && Lasting(h, r.hv) && r.hv.backups == h.backups
            && (r.err == Ok <==> r.hv.vms[id - 1].state == Running)
            && (r.err == Ok ==> Fresh(r.hv, id - 1, entry))
  {
    hide VmStop, VmFinalize, Launch;
    var s := VmStop(h, id);
    StopLasting(h, id);
    FinalizeFresh(s, id);
    var f := VmFinalize(s, id);
    if f.err == Ok { LaunchFresh(f.hv, id, entry, now); }
  }

  // ---------- failover and everything that leads to it ----------

  lemma RevokeRefits(h: Hv, id: int, now: u64)
    requires Sized(h) && Exists(h, id)
    ensures Refitted(h, TrustRevoke(h, id, now).hv, id - 1)
    ensures TrustRevoke(h, id, now).hv.vms[id - 1].state == Stopped
  {
    hide VmStop;
    StopLasting(TrustSet(h, id, Revoked, now), id);
  }

  /** A failover ends well exactly if it counted and the VM runs. */
  lemma FailoverRefits(h: Hv, id: int, now: u64)
    requires Sized(h) && Exists(h, id)
    ensures var r := DoFailover(h, id, now);
            && Refitted(h, r.hv, id - 1)
            && (r.err == Ok <==> r.hv.backups[id - 1].count > h.backups[id - 1].count && r.hv.vms[id - 1].state == Running)
  {
    hide Restart, TrustRevoke;
    var bd := h.backups[id - 1];
    if bd.count >= FAILOVER_MAX_ATTEMPTS {
      RevokeRefits(h, id, now);
    } else {
      RestartFresh(h.(backups := h.backups[id - 1 := bd.(count := bd.count + 1)]), id, bd.entry, now);
    }
  }

  lemma QuarantineRefits(h: Hv, id: int, now: u64)
    requires Sized(h) && Exists(h, id)
    ensures Refitted(h, TrustQuarantine(h, id, now).hv, id - 1)
  {
    hide DoFailover;
    if !Blocked(h.trust.recs[id - 1].level) {
      var q := TrustSet(h, id, Quarantine, now);
      var q' := q.(trust := q.trust.(quarantines := Inc32(q.trust.quarantines)));
      var s := VmSuspend(q', id).hv;
      assert Refitted(h, s, id - 1);
      FailoverRefits(s, id, now);
      RefittedTwice(h, s, DoFailover(s, id, now).hv, id - 1);
    }
  }

  lemma ReportRefits(h: Hv, id: int, faultType: u32, detail: u64, now: u64)
    requires Sized(h) && Exists(h, id)
    ensures Refitted(h, ReportFault(h, id, faultType, detail, now).hv, id - 1)
  {
    hide TrustQuarantine;
    var old' := h.trust.recs[id - 1];
    if h.trust.up && old'.level != Revoked {
      var rec := old'.(faults := Inc32(old'.faults), lastType := faultType, lastDetail := detail, lastFaultAt := now);
      var g := WithRec(h.(trust := h.trust.(total := Inc32(h.trust.total))), id, rec);
      QuarantineRefits(g, id, now);
      Untouched(h, g, TrustQuarantine(g, id, now).hv, TrustQuarantine(g, id, now).hv, id - 1);
    }
  }

  lemma EnforceRefits(h: Hv, id: int, faultType: u32, count: u32, now: u64)
    requires Sized(h) && Exists(h, id)
    ensures Refitted(h, Enforce(h, id, faultType, count, now), id - 1)
  {
    hide TrustQuarantine;
    QuarantineRefits(h, id, now);
    if !Blocked(TrustGet(h, id)) {
      Untouched(h, h, TrustQuarantine(h, id, now).hv, Enforce(h, id, faultType, count, now), id - 1);
    }
  }

  lemma StormRefits(h: Hv, id: int, faultType: u32, now: u64)
    requires Sized(h) && Exists(h, id)
    ensures Refitted(h, StormStage(h, id, faultType, now), id - 1)
  {
    hide Enforce;
    var m, r := h.ids.mon[id - 1], StormStage(h, id, faultType, now);
    var count := Inc32(m.faults);
    var g := Log(Anomaly(WithMon(h, id, m.(faults := count))), id, EvStorm, Alert, faultType, count, now);
    if !WindowExpired(m, now) && count == STORM_FAULTS + 1 {
      EnforceRefits(g, id, faultType, count, now);
      Untouched(h, g, r, r, id - 1);
    }
  }

  lemma NotifyRefits(h: Hv, id: int, faultType: u32, detail: u64, now: u64)
    requires Sized(h) && Exists(h, id)
    ensures Refitted(h, NotifyFault(h, id, faultType, detail, now), id - 1)
  {
    hide StormStage;
    if h.ids.up {
      var b := RepeatStage(Evidence(h, id, faultType, detail, now), id, faultType, now);
      var c := StormStage(b, id, faultType, now);
      StormRefits(b, id, faultType, now);
      Untouched(h, b, c, RapidStage(c, id, faultType, now), id - 1);
    }
  }

  lemma FeedRefits(h: Hv, g: Hv, id: int, faultType: u32, detail: u64, now: u64)
    requires Sized(h) && Sized(g) && Exists(h, id) && g == h.(stats := g.stats)
    ensures Refitted(h, Feed(g, id, faultType, detail, now), id - 1)
  {
    hide ReportFault, NotifyFault;
    var k := ReportFault(g, id, faultType, detail, now).hv;
    ReportRefits(g, id, faultType, detail, now);
    NotifyRefits(k, id, faultType, detail, now);
    RefittedTwice(g, k, Feed(g, id, faultType, detail, now), id - 1);
    Untouched(h, g, Feed(g, id, faultType, detail, now), Feed(g, id, faultType, detail, now), id - 1);
  }

  lemma AbsentStays(h: Hv, g: Hv, id: int, faultType: u32, detail: u64, now: u64)
    requires Sized(h) && Sized(g) && !Exists(h, id) && g == h.(stats := g.stats)
    ensures SameMachine(h, Feed(g, id, faultType, detail, now))
  {
    hide NotifyFault;
    if ValidId(id) { AbsentNotify(ReportFault(g, id, faultType, detail, now).hv, id, faultType, detail, now); }
  }

  // ---------- every event ----------

  /** Of the vCPUs there are, and of the registrations, an event changes no more than this. */
  predicate Steady(h: Hv, g: Hv)
    requires Sized(h) && Sized(g)
  {
    |g.vms| == |h.vms| && Lasting(h, g) && SameBackups(h, g)
  }

  lemma SameIsSteady(h: Hv, g: Hv, i: int)
    requires Sized(h) && Sized(g) && SameMachine(h, g)
    ensures Steady(h, g) && (0 <= i < |h.vms| ==> Refitted(h, g, i))
  {
  }

  lemma RefittedIsSteady(h: Hv, g: Hv, i: int)
    requires Sized(h) && Sized(g) && 0 <= i < |h.vms| && Refitted(h, g, i)
    ensures Steady(h, g)
  {
  }

  lemma FaultSteady(h: Hv, e: Event, now: u64)
    requires Sized(h) && IsFault(e)
    ensures Steady(h, Step(h, e, now))
    ensures Exists(h, e.id) ==> Refitted(h, Step(h, e, now), e.id - 1)
  {
    hide Feed, Steady, Refitted, Charged;
    if h.stats.up {
      var faultType, detail := FaultStep(h, e, now);
      hide Step;
      if Exists(h, e.id) {
        FeedRefits(h, Charged(h, e), e.id, faultType, detail, now);
        RefittedIsSteady(h, Step(h, e, now), e.id - 1);
      } else {
        AbsentStays(h, Charged(h, e), e.id, faultType, detail, now);
        SameIsSteady(h, Step(h, e, now), 0);
      }
    } else {
      SameIsSteady(h, h, e.id - 1);
    }
  }

  lemma PollSame(h: Hv, now: u64)
    requires Sized(h)
    ensures SameMachine(h, Poll(h, now))
  {
    hide PollScan, Promote;
    if h.ids.up { PromoteSame(PollScan(h, MAX_VMS, now), MAX_VMS, now); }
  }

  lemma {:induction false} PromoteSame(h: Hv, n: nat, now: u64)
    requires Sized(h) && n <= MAX_VMS
    ensures SameMachine(h, Promote(h, n, now))
  {
    if n > 0 && h.trust.up { PromoteSame(h, n - 1, now); }
  }

  lemma CommandSteady(h: Hv, e: Event, now: u64)
    requires Sized(h) && (e.EQuarantine? || e.ERevoke? || e.ETrigger?)
    ensures Steady(h, Step(h, e, now))
    ensures Exists(h, e.id) ==> Refitted(h, Step(h, e, now), e.id - 1)
  {
    hide TrustQuarantine, TrustRevoke, DoFailover, Steady, Refitted;
    SameIsSteady(h, h, e.id - 1);
    if Exists(h, e.id) {
      QuarantineRefits(h, e.id, now);
      RevokeRefits(h, e.id, now);
      FailoverRefits(h, e.id, now);
      RefittedIsSteady(h, Step(h, e, now), e.id - 1);
    } else {
      AbsentCommand(h, e, now);
    }
  }

  lemma CallSteady(h: Hv, e: Event, now: u64)
    requires Sized(h) && (e.ERestore? || e.EStop? || e.ESuspend? || e.EResume? || e.EIrq?)
    ensures Steady(h, Step(h, e, now))
  {
    hide VmStop;
    if e.EStop? && Exists(h, e.id) { StopLasting(h, e.id); }
  }

  lemma StepSteady(h: Hv, e: Event, now: u64)
    requires Sized(h)
    ensures !e.ERegister? ==> Steady(h, Step(h, e, now))
    ensures Lasting(h, Step(h, e, now)) && |Step(h, e, now).vms| == |h.vms|
  {
    hide MemFault, DmaViolation, Poll, TrustQuarantine, TrustRevoke, TrustRestore, FailoverTrigger, VmStop;
    match e {
      case EMemFault(_, _, _) => FaultSteady(h, e, now);
      case EDma(_, _) => FaultSteady(h, e, now);
      case EPoll =>
        PollSame(h, now);
        SameIsSteady(h, Step(h, e, now), 0);
      case EQuarantine(_) => CommandSteady(h, e, now);
      case ERevoke(_) => CommandSteady(h, e, now);
      case ETrigger(_) => CommandSteady(h, e, now);
      case ERegister(_, _, _, _, _) =>
      case _ => CallSteady(h, e, now);
    }
  }

  /** Events that touch no restart count of VM i. */
  lemma CountStays(h: Hv, e: Event, now: u64, i: int)
    requires Sized(h) && 0 <= i < |h.vms|
    requires e.EPoll? || e.EIrq? || e.id != i + 1 || e.ERestore? || e.EStop? || e.ESuspend? || e.EResume? || e.ERegister?
    ensures var g := Step(h, e, now); |g.vms| == |h.vms| && g.backups[i].count <= h.backups[i].count
  {
    hide Step, UFeed, StormNow, AllAligned, UFailover, UQuarantine;
    UnitStep(h, e, now, i);
    assert CellOf(Step(h, e, now), i).count == Step(h, e, now).backups[i].count;
  }

  /** Whatever event it is, in whatever state: if it restarted VM i and the VM runs, the
      VM has new vCPUs, and the first starts at the entry that was registered. */
  lemma RestartEntry(h: Hv, e: Event, now: u64, i: int)
    requires Sized(h) && 0 <= i < |h.vms|
    ensures var g := Step(h, e, now);
            && |g.vms| == |h.vms|
            && (g.backups[i].count > h.backups[i].count && g.vms[i].state == Running ==> Fresh(g, i, h.backups[i].entry))
  {
    hide Step, Fresh, Steady, Lasting, SameBackups;
    StepSteady(h, e, now);
    if (IsFault(e) || e.EQuarantine? || e.ERevoke? || e.ETrigger?) && e.id == i + 1 {
      if IsFault(e) { FaultSteady(h, e, now); } else { CommandSteady(h, e, now); }
    } else {
      CountStays(h, e, now, i);
    }
  }

  // ---------- whole runs ----------

  /** A registration that is accepted while failover is up. */
  predicate Registers(e: Event, id: int) {
    e.ERegister? && e.id == id && e.pa != 0 && e.size != 0
  }

  /** The last of them in the run. */
  function LastRegistration(run: Run, id: int): (e: Option<Event>)
    ensures e.Some? ==> Registers(e.value, id)
  {
    if run == [] then None
    else if Registers(run[|run| - 1].0, id) then Some(run[|run| - 1].0)
    else LastRegistration(run[..|run| - 1], id)
  }

  /** The record holds what the registration said. */
  predicate Holds(b: Backup, e: Event)
    requires e.ERegister?
  {
    b.registered && b.critical && b.pa == e.pa && b.live == e.live && b.size == e.size && b.entry == e.entry
  }

  predicate LastHeld(h: Hv, g: Hv, run: Run, i: int)
    requires Sized(h) && Sized(g) && 0 <= i < MAX_VMS
  {
    match LastRegistration(run, i + 1)
    case Some(e) => Holds(g.backups[i], e)
    case None => g.backups[i] == h.backups[i].(count := g.backups[i].count)
  }

  lemma HeldStep(h: Hv, g: Hv, e: Event, now: u64, i: int)
    requires Sized(h) && h.failoverUp && 0 <= i < |h.vms| && g == Step(h, e, now)
    ensures g.failoverUp && |g.vms| == |h.vms|
    ensures if Registers(e, i + 1) then Holds(g.backups[i], e)
            else g.backups[i] == h.backups[i].(count := g.backups[i].count)
  {
    StepSteady(h, e, now);
    UnitStep(h, e, now, i);
    if !e.ERegister? { hide Step; }
  }

  /** Over every run a VM's registration is the last accepted one of the run. */
  lemma {:induction false} RegistrationHeld(h: Hv, run: Run, i: int)
    requires Sized(h) && h.failoverUp && 0 <= i < |h.vms|
    ensures var g := After(h, run); g.failoverUp && |g.vms| == |h.vms| && LastHeld(h, g, run, i)
  {
    if run != [] {
      hide Step;
      var init, last := run[..|run| - 1], run[|run| - 1];
      RegistrationHeld(h, init, i);
      HeldStep(After(h, init), After(h, run), last.0, last.1, i);
    }
  }

  /** Where VM i restarts after this run. */
  function EntryAfter(h: Hv, run: Run, i: int): u64
    requires Sized(h) && 0 <= i < MAX_VMS
  {
    match LastRegistration(run, i + 1)
    case Some(e) => e.entry
    case None => h.backups[i].entry
  }

  /** After any run, whichever event then restarts VM i: it runs on new vCPUs, and the
      first of them starts at the entry of the VM's last accepted registration. */
  lemma FailoverEntry(h: Hv, run: Run, e: Event, now: u64, i: int)
    requires Sized(h) && h.failoverUp && 0 <= i < |h.vms|
    ensures var g := After(h, run);
            var k := Step(g, e, now);
            && |k.vms| == |g.vms| == |h.vms|
            && (k.backups[i].count > g.backups[i].count && k.vms[i].state == Running ==> Fresh(k, i, EntryAfter(h, run, i)))
  {
    hide Step, After, Fresh;
    RegistrationHeld(h, run, i);
    RestartEntry(After(h, run), e, now, i);
  }

  /** A manual failover that reports success is such an event. */
  lemma TriggerEntry(h: Hv, run: Run, now: u64, id: int)
    requires Sized(h) && h.failoverUp && Exists(h, id)
    ensures var r := FailoverTrigger(After(h, run), id, now);
            && |r.hv.vms| == |h.vms|
            && (r.err == Ok ==> r.hv.vms[id - 1].state == Running && Fresh(r.hv, id - 1, EntryAfter(h, run, id - 1)))
  {
    hide After, Fresh, DoFailover, Refitted;
    RegistrationHeld(h, run, id - 1);
    FailoverEntry(h, run, ETrigger(id), now, id - 1);
    FailoverRefits(After(h, run), id, now);
  }
}
