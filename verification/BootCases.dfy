/** Runs from boot that show what the machine does where it does not keep its promises. */
module BootCases {
  import opened Words
  import opened VmSpec
  import opened HvSpec
  import opened HvInv
  import opened HvFrames
  import opened HvBase
  import opened HvCells
  import opened HvRuns
  import opened HvVcpus
  import opened HvBoot
  import opened StormWindow
  import opened Detectors
  import opened HvMonitor
  import opened CleanPeriod

  /** The VMs' cells, and the monitor, right after boot. */
  lemma BootCells(es: seq<HvBoot.Entry>, genuine: set<int>, now: u64)
    requires AllFit(es)
    ensures var g := Boot(es, genuine, now);
            && Base(g) && Watching(g) && g.trust.up && |g.vms| == 3 && g.ids.log == []
            && (forall i :: 0 <= i < 3 ==>
                  CellOf(g, i) == Cell(Running, if i + 1 in genuine then Trusted else Quarantine, 0, i == 1, 0))
  {
    var m0, m1, m2 := ForVm(es, 1), ForVm(es, 2), ForVm(es, 3);
    var g := Boot(es, genuine, now);
    hide Boot, ForVm, AllFit, Base;
    BootIsSound(es, genuine, now);
    BootedSize(g, m0, m1, m2, genuine);
    forall i | 0 <= i < 3
      ensures CellOf(g, i) == Cell(Running, if i + 1 in genuine then Trusted else Quarantine, 0, i == 1, 0)
    {
      BootedCells(g, m0, m1, m2, genuine, i);
    }
  }

  /** Over all runs from boot the fault budgets of Linux and Android are kept whatever the
      images; that of the RTOS exactly when its own image is genuine. */
  lemma BootBudget(es: seq<HvBoot.Entry>, genuine: set<int>, now: u64)
    requires AllFit(es)
    ensures var g := Boot(es, genuine, now);
            BudgetAlways(g, 0) && BudgetAlways(g, 2) && (BudgetAlways(g, 1) <==> 2 in genuine)
  {
    hide Boot, Base, BudgetAlways, AllFit;
    var g := Boot(es, genuine, now);
    BootCells(es, genuine, now);
    BudgetExact(g, 0);
    BudgetExact(g, 1);
    BudgetExact(g, 2);
  }

  // ---------- one VM hammered with DMA faults ----------

  lemma BootMonitor(es: seq<HvBoot.Entry>, genuine: set<int>, now: u64, i: int)
    requires 0 <= i < MAX_VMS
    ensures var m := Boot(es, genuine, now).ids.mon[i]; m.start == now && m.faults == 0 && m.first == 0
  {
    hide PlatformInit;
  }

  function Steady(now: u64, n: nat): (ts: seq<int>)
    ensures |ts| == n
  {
    if n == 0 then [] else Steady(now, n - 1) + [now]
  }

  lemma {:induction false} SteadyTicks(now: u64, n: nat)
    requires n < 0x1_0000_0000
    ensures Ticks(Window(now, 0), Steady(now, n)) == Window(now, n)
    ensures Alerts(Window(now, 0), Steady(now, n)) == if n >= 5 then [now] else []
  {
    if n > 0 {
      SteadyTicks(now, n - 1);
      OneMore(Window(now, 0), Steady(now, n - 1), now);
      DivMod(n, 0x1_0000_0000, 0, n);
    }
  }

  lemma {:induction false} HammerTimes(id: int, now: u64, n: nat)
    requires ValidId(id)
    ensures Times(Faults(Hammer(EDma(id, 0), now, n), id)) == Steady(now, n)
  {
    if n > 0 {
      var run := Hammer(EDma(id, 0), now, n);
      HammerTimes(id, now, n - 1);
      assert run[..n - 1] == Hammer(EDma(id, 0), now, n - 1);
      OneMoreTime(Faults(run[..n - 1], id), HvMonitor.EntryOf(EDma(id, 0), now));
    }
  }

  /** The window counts the faults, and the fifth raises the one alert. */
  lemma HammerWindow(es: seq<HvBoot.Entry>, genuine: set<int>, now: u64, id: int, n: nat)
    requires AllFit(es) && 1 <= id <= 3 && n < 0x1_0000_0000
    ensures var k := After(Boot(es, genuine, now), Hammer(EDma(id, 0), now, n));
            && WindowOf(k.ids.mon[id - 1]) == Window(now, n)
            && StormTimes(k.ids.log, id) == (if n >= 5 then [now] else [])
            && (StormNow(k, id, now) <==> n == 4)
  {
    hide Boot, AllFit, Base, After, Ticks, Alerts, StormNow, Times, Faults;
    var g, run := Boot(es, genuine, now), Hammer(EDma(id, 0), now, n);
    BootCells(es, genuine, now);
    BootMonitor(es, genuine, now, id - 1);
    StormsAreAlerts(g, run, id);
    StaysWatching(g, run);
    HammerTimes(id, now, n);
    SteadyTicks(now, n);
    assert StormTimes(g.ids.log, id) == [] by { NoStorms(id); }
    FifthRaises(After(g, run), id, now, n);
  }

  lemma NoStorms(id: int)
    ensures StormTimes([], id) == []
  {
  }

  lemma FifthRaises(k: Hv, id: int, now: u64, n: nat)
    requires Sized(k) && ValidId(id) && k.ids.up && n < 0x1_0000_0000 && WindowOf(k.ids.mon[id - 1]) == Window(now, n)
    ensures StormNow(k, id, now) <==> n == 4
  {
    if n < 0xFFFF_FFFF { DivMod(n + 1, 0x1_0000_0000, 0, n + 1); }
  }

  /** An RTOS whose image was rejected at boot runs, quarantined and registered, and no
      number of faults and no storm alert is ever answered. */
  lemma RejectedRtosGoesOn(es: seq<HvBoot.Entry>, genuine: set<int>, now: u64, n: nat)
    requires AllFit(es) && 2 !in genuine && 5 <= n < 0x1_0000_0000
    ensures var k := After(Boot(es, genuine, now), Hammer(EDma(2, 0), now, n));
            && StormTimes(k.ids.log, 2) == [now]
            && |k.vms| == 3 && CellOf(k, 1) == Cell(Running, Quarantine, n, true, 0)
  {
    hide Boot, AllFit, Base, After;
    var g, run := Boot(es, genuine, now), Hammer(EDma(2, 0), now, n);
    BootCells(es, genuine, now);
    HammerWindow(es, genuine, now, 2, n);
    QuarantinedGoesOn(g, run, 1);
    DivMod(n, 0x1_0000_0000, 0, n);
  }

  // ---------- an alert for every fault ----------

  /** Linux after n faults: the fifth, which raises the storm alert, has it quarantined. */
  predicate Hammered(k: Hv, n: nat) {
    && Sized(k) && k.trust.up && k.stats.up && |k.vms| > 0
    && (n <= 4 ==> CellOf(k, 0) == Cell(Running, Trusted, n, false, 0))
    && (n > 4 ==> CellOf(k, 0).level == Quarantine)
  }

  lemma HammeredUnit(p: Setting, u: Unit, n: nat)
    requires p.trust && n <= 4 && u.cell == Cell(Running, Trusted, n, false, 0)
    ensures n < 4 ==> UFeed(p, u, false).cell == Cell(Running, Trusted, n + 1, false, 0)
    ensures n == 4 ==> UFeed(p, u, true).cell.level == Quarantine
  {
    DivMod(n + 1, 0x1_0000_0000, 0, n + 1);
  }

  lemma HammeredStep(k: Hv, now: u64, n: nat)
    requires Hammered(k, n) && (n <= 4 ==> (StormNow(k, 1, now) <==> n == 4))
    ensures Hammered(Step(k, EDma(1, 0), now), n + 1)
  {
    hide Step, UFeed, StormNow;
    if n > 4 {
      QuarantinedStep(k, EDma(1, 0), now, 0);
    } else {
      UnitStep(k, EDma(1, 0), now, 0);
      StatsUp(k, EDma(1, 0), now);
      HammeredUnit(SettingOf(k, 0), UnitOf(k, 0), n);
    }
  }

  lemma {:induction false} LinuxHammered(es: seq<HvBoot.Entry>, genuine: set<int>, now: u64, n: nat)
    requires AllFit(es) && 1 in genuine
    ensures Hammered(After(Boot(es, genuine, now), Hammer(EDma(1, 0), now, n)), n)
  {
    hide Boot, AllFit, Base, Step, StormNow;
    var g, run := Boot(es, genuine, now), Hammer(EDma(1, 0), now, n);
    if n == 0 {
      BootCells(es, genuine, now);
    } else {
      LinuxHammered(es, genuine, now, n - 1);
      assert run[..n - 1] == Hammer(EDma(1, 0), now, n - 1);
      if n - 1 <= 4 { HammerWindow(es, genuine, now, 1, n - 1); }
      hide Hammered;
      HammeredStep(After(g, run[..n - 1]), now, n - 1);
    }
  }

  /** From the fifth on, every fault finds the VM blocked. */
  function Blows(now: u64, n: nat): (hits: seq<Hit>)
    ensures |hits| == n
  {
    if n == 0 then [] else Blows(now, n - 1) + [Hit(now, FAULT_DMA, n > 4)]
  }

  function Copies(e: Detectors.Entry, n: int): seq<Detectors.Entry> {
    if n <= 0 then [] else Copies(e, n - 1) + [e]
  }

  predicate Alerted(first: u64, hits: seq<Hit>, now: u64, n: nat) {
    && Open(first, hits) == (if 1 <= n <= 4 then now else 0)
    && Rapids(first, hits) == Copies(Detectors.Entry(now, FAULT_DMA, 0), n - 4)
  }

  lemma AlertedStep(first: u64, hits: seq<Hit>, now: u64, n: nat)
    requires now != 0 && Alerted(first, hits, now, n)
    ensures Alerted(first, hits + [Hit(now, FAULT_DMA, n >= 4)], now, n + 1)
  {
    hide Open, Rapids, Fires, Opening, Sub64;
    var e := Detectors.Entry(now, FAULT_DMA, 0);
    OneMoreHit(first, hits, Hit(now, FAULT_DMA, n >= 4));
    BlowFires(now, n >= 4, Open(first, hits));
    assert Copies(e, n - 3) == Copies(e, n - 4) + if n >= 4 then [e] else [];
  }

  lemma {:induction false} BlowsAlert(now: u64, n: nat)
    requires now != 0
    ensures Alerted(0, Blows(now, n), now, n)
  {
    if n > 0 {
      hide Alerted;
      BlowsAlert(now, n - 1);
      AlertedStep(0, Blows(now, n - 1), now, n - 1);
    }
  }

  lemma BlowFires(now: u64, blocked: bool, first: u64)
    requires now != 0 && (first == 0 || first == now)
    ensures var hit := Hit(now, FAULT_DMA, blocked);
            (Fires(first, hit) <==> blocked) && Opening(first, hit) == now && Sub64(now, now) == 0
  {
  }

  lemma {:induction false} HammerHits(es: seq<HvBoot.Entry>, genuine: set<int>, now: u64, n: nat)
    requires AllFit(es) && 1 in genuine
    ensures Hits(Boot(es, genuine, now), Hammer(EDma(1, 0), now, n), 1) == Blows(now, n)
  {
    hide Boot, AllFit, Step;
    if n > 0 {
      var g, run := Boot(es, genuine, now), Hammer(EDma(1, 0), now, n);
      HammerHits(es, genuine, now, n - 1);
      LinuxHammered(es, genuine, now, n);
      assert run[..n - 1] == Hammer(EDma(1, 0), now, n - 1);
    }
  }

  /** A VM without a backup that is hammered from boot on: from the storm alert on every
      single fault adds a rapid-escalation record. */
  lemma AlertForEveryFault(es: seq<HvBoot.Entry>, genuine: set<int>, now: u64, n: nat)
    requires AllFit(es) && 1 in genuine && now != 0
    ensures var k := After(Boot(es, genuine, now), Hammer(EDma(1, 0), now, n));
            Recorded(k.ids.log, 1, EvRapid) == Copies(Detectors.Entry(now, FAULT_DMA, 0), n - 4)
  {
    hide Boot, AllFit, Base, After;
    var g, run := Boot(es, genuine, now), Hammer(EDma(1, 0), now, n);
    BootCells(es, genuine, now);
    BootMonitor(es, genuine, now, 0);
    RapidsOnRecord(g, run, 1);
    HammerHits(es, genuine, now, n);
    BlowsAlert(now, n);
    assert Recorded(g.ids.log, 1, EvRapid) == [];
  }

  // ---------- where the RTOS restarts ----------

  lemma BootBackup(es: seq<HvBoot.Entry>, genuine: set<int>, now: u64)
    requires AllFit(es)
    ensures var g := Boot(es, genuine, now);
            && |g.vms| == 3 && g.trust.up && g.failoverUp && g.vms[1].id == 2 && g.vms[1].kind == Rtos
            && g.backups[1].entry == 0x8000
  {
    hide AllFit, ForVm, Boot, TableBudget.BootTables;
    BootIsSound(es, genuine, now);
  }

  /** Boot starts the vCPUs at the entry points of the three images, with their device
      trees, registers the RTOS with its backup, and has the trust engine and the monitor start from nothing. */
  lemma BootVcpus(es: seq<HvBoot.Entry>, genuine: set<int>, now: u64)
    requires AllFit(es)
    ensures var g := Boot(es, genuine, now);
            && g.vcpus == [Vcpu(1, 0, VReady, 0x20_0000, 0x400_0000), Vcpu(2, 0, VReady, 0x8000, 0),
                           Vcpu(3, 0, VReady, 0x20_0000, 0x200_0000), Vcpu(3, 1, VReady, 0x20_0000, 0x200_0000)]
            && g.backups[1] == Backup(true, 0x9000_0000, 0x6000_8000, 0x2000, 0x8000, true, 0)
            && Booked(g.ids)
            && (forall i :: 0 <= i < MAX_VMS ==> g.trust.recs[i].lastFaultAt == 0 && g.ids.mon[i].seen == g.trust.recs[i].level)
  {
    hide AllFit, ForVm, Boot, TableBudget.BootTables;
    BootIsSound(es, genuine, now);
  }

  /** After boot and any run that does not register the RTOS anew, whichever event restarts
      it: its new vCPU starts at 0x8000 without a device tree. */
  lemma RtosRestartsAtEntry(es: seq<HvBoot.Entry>, genuine: set<int>, now: u64, run: Run, e: Event, t: u64)
    requires AllFit(es) && LastRegistration(run, 2).None?
    ensures var g := After(Boot(es, genuine, now), run);
            var k := Step(g, e, t);
            && |k.vms| == |g.vms| == 3
            && (k.backups[1].count > g.backups[1].count && k.vms[1].state == Running ==>
                  |k.vms[1].vcpus| == 1 && k.vcpus[k.vms[1].vcpus[0]] == Vcpu(2, 0, VReady, 0x8000, 0))
  {
    hide AllFit, Boot, After, Step, Furnished, Contained;
    var h := Boot(es, genuine, now);
    BootBackup(es, genuine, now);
    FailoverEntry(h, run, e, t, 1);
    RunTame(h, run);
    StepTame(After(h, run), e, t);
  }

  /** The RTOS after n faults at once: the fifth raises the storm alert and has it restarted. */
  ghost predicate RtosAfter(k: Hv, n: nat) {
    && Base(k) && k.stats.up && |k.vms| == 3
    && CellOf(k, 1) == if n <= 4 then Cell(Running, Trusted, n, true, 0) else Cell(Running, Degraded, 5, true, 1)
  }

  lemma RtosFeed(n: nat)
    requires n <= 4
    ensures n < 4 ==> CFeed(Cell(Running, Trusted, n, true, 0), false) == Cell(Running, Trusted, n + 1, true, 0)
    ensures n == 4 ==> CFeed(Cell(Running, Trusted, n, true, 0), true) == Cell(Running, Degraded, 5, true, 1)
  {
    DivMod(n + 1, 0x1_0000_0000, 0, n + 1);
  }

  lemma RtosStep(k: Hv, now: u64, n: nat)
    requires n <= 4 && RtosAfter(k, n) && (StormNow(k, 2, now) <==> n == 4)
    ensures RtosAfter(Step(k, EDma(2, 0), now), n + 1)
  {
    hide Base, Step, CFeed, StormNow;
    BaseSized(k);
    StepBase(k, EDma(2, 0), now);
    StepCell(k, EDma(2, 0), now, 1);
    StatsUp(k, EDma(2, 0), now);
    RtosFeed(n);
  }

  lemma {:induction false} RtosHammered(es: seq<HvBoot.Entry>, genuine: set<int>, now: u64, n: nat)
    requires AllFit(es) && 2 in genuine && n <= 5
    ensures RtosAfter(After(Boot(es, genuine, now), Hammer(EDma(2, 0), now, n)), n)
  {
    hide Boot, AllFit, Base, Step, StormNow;
    var g, run := Boot(es, genuine, now), Hammer(EDma(2, 0), now, n);
    if n == 0 {
      BootCells(es, genuine, now);
    } else {
      RtosHammered(es, genuine, now, n - 1);
      assert run[..n - 1] == Hammer(EDma(2, 0), now, n - 1);
      HammerWindow(es, genuine, now, 2, n - 1);
      hide RtosAfter;
      RtosStep(After(g, run[..n - 1]), now, n - 1);
    }
  }

  /** Five DMA violations at once, from boot on: the RTOS is restarted from its backup,
      degraded and running, on a new vCPU at 0x8000. */
  lemma StormRestartsRtos(es: seq<HvBoot.Entry>, genuine: set<int>, now: u64)
    requires AllFit(es) && 2 in genuine
    ensures var k := After(Boot(es, genuine, now), Hammer(EDma(2, 0), now, 5));
            && |k.vms| == 3 && CellOf(k, 1) == Cell(Running, Degraded, 5, true, 1)
            && |k.vms[1].vcpus| == 1 && k.vcpus[k.vms[1].vcpus[0]] == Vcpu(2, 0, VReady, 0x8000, 0)
  {
    hide Boot, AllFit, Base, Step;
    var g, init := Boot(es, genuine, now), Hammer(EDma(2, 0), now, 4);
    RtosHammered(es, genuine, now, 4);
    RtosHammered(es, genuine, now, 5);
    assert Hammer(EDma(2, 0), now, 5)[..4] == init;
    NeverRegistered(init, 2);
    RtosRestartsAtEntry(es, genuine, now, init, EDma(2, 0), now);
  }

  lemma {:induction false} NeverRegistered(run: Run, id: int)
    requires forall k :: 0 <= k < |run| ==> !run[k].0.ERegister?
    ensures LastRegistration(run, id).None?
  {
    if run != [] { NeverRegistered(run[..|run| - 1], id); }
  }

  // ---------- the thresholds ----------

  /** A VM without a backup that has had n faults and no storm. */
  predicate Rung(k: Hv, i: int, n: nat) {
    && Sized(k) && k.trust.up && k.stats.up && 0 <= i < |k.vms| && n < 0x1_0000_0000
    && CellOf(k, i) == if n < 5 then Cell(Running, Trusted, n, false, 0)
                       else if n < 15 then Cell(Running, Degraded, n, false, 0)
                       else Cell(Suspended, Quarantine, n, false, 0)
  }

  lemma RungStep(k: Hv, e: Event, now: u64, i: int, n: nat)
    requires Rung(k, i, n) && n + 1 < 0x1_0000_0000 && IsFault(e) && e.id == i + 1 && !StormNow(k, i + 1, now)
    ensures Rung(Step(k, e, now), i, n + 1)
  {
    hide Step, StormNow, UFailover;
    UnitStep(k, e, now, i);
    StatsUp(k, e, now);
    DivMod(n + 1, 0x1_0000_0000, 0, n + 1);
  }

  lemma CalmFault(h: Hv, run: Run, id: int)
    requires Sized(h) && ValidId(id) && Watching(h) && run != [] && FaultOf(run[|run| - 1].0, id)
    requires Alerts(WindowOf(h.ids.mon[id - 1]), Times(Faults(run, id))) == []
    ensures var init, last := run[..|run| - 1], run[|run| - 1];
            && Alerts(WindowOf(h.ids.mon[id - 1]), Times(Faults(init, id))) == []
            && !StormNow(After(h, init), id, last.1)
  {
    hide After, Times, Ticks, Alerts, Tick;
    var init, last, w := run[..|run| - 1], run[|run| - 1], WindowOf(h.ids.mon[id - 1]);
    StormsAreAlerts(h, init, id);
    OneMoreTime(Faults(init, id), EntryOf(last.0, last.1));
    OneMore(w, Times(Faults(init, id)), last.1);
  }

  /** From boot on, any faults of a VM without a backup that raise no storm alert: trusted
      up to the fourth, degraded from the fifth, quarantined and suspended from the fifteenth. */
  lemma {:induction false} FaultLadder(es: seq<HvBoot.Entry>, genuine: set<int>, now: u64, run: Run, id: int)
    requires AllFit(es) && (id == 1 || id == 3) && id in genuine && OnlyFaults(run, id - 1) && |run| < 0x1_0000_0000
    requires Alerts(WindowOf(Boot(es, genuine, now).ids.mon[id - 1]), Times(Faults(run, id))) == []
    ensures Rung(After(Boot(es, genuine, now), run), id - 1, |run|)
  {
    hide Boot, AllFit, Base, Step, StormNow, Times, Alerts;
    BootCells(es, genuine, now);
    if run != [] {
      var init, last := run[..|run| - 1], run[|run| - 1];
      CalmFault(Boot(es, genuine, now), run, id);
      FaultLadder(es, genuine, now, init, id);
      hide Rung;
      RungStep(After(Boot(es, genuine, now), init), last.0, last.1, id - 1, |init|);
    }
  }

  // ---------- the clean period ----------

  /** From boot on, a poll trusts a degraded VM again exactly if its last fault that found
      it not revoked, or the clock's zero if there was none, is at least 30 seconds ago. */
  lemma CleanFromBoot(es: seq<HvBoot.Entry>, genuine: set<int>, now: u64, run: Run, t: u64, i: int)
    requires AllFit(es) && 0 <= i < 3
    ensures var g := After(Boot(es, genuine, now), run);
            var k, last := Step(g, EPoll, t), LastCounted(Boot(es, genuine, now), run, i + 1);
            && |k.vms| == |g.vms| == 3
            && (g.trust.recs[i].level == Degraded ==>
                  (k.trust.recs[i].level == Trusted <==>
                     match last case None => t >= 30_000_000 case Some(f) => f.time <= t && t - f.time >= 30_000_000))
  {
    hide Boot, AllFit, Base, Step, After;
    BootCells(es, genuine, now);
    BootVcpus(es, genuine, now);
    PromotedExactly(Boot(es, genuine, now), run, t, i);
  }
}
