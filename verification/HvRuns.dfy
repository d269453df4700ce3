/** Safety over whole runs of faults, storms, polls, operator commands and VM
    hypercalls, in any order and with any clock readings. */
module HvRuns {
  import opened Words
  import opened Stage2Spec
  import opened VmSpec
  import opened HvSpec
  import opened HvInv
  import opened HvFrames
  import opened HvBase
  import opened HvCells

  type Run = seq<(Event, u64)>

  function After(h: Hv, run: Run): (g: Hv)
    requires Sized(h)
    ensures Sized(g)
  {
    if run == [] then h
    else
      var last := run[|run| - 1];
      Step(After(h, run[..|run| - 1]), last.0, last.1)
  }

  // ---------- every run, from any state ----------

  predicate NoBlockedResumes(h: Hv, run: Run)
    requires Sized(h)
  {
    run == []
    || (NoBlockedResumes(h, run[..|run| - 1]) && !ResumesBlocked(After(h, run[..|run| - 1]), run[|run| - 1].0))
  }

  lemma {:induction false} RunTame(h: Hv, run: Run)
    requires Sized(h) && h.trust.up
    ensures var g := After(h, run);
            && g.trust.up && Evolved(h, g)
            && (Furnished(h) ==> SameTables(g.s2, h.s2) && Furnished(g))
            && (Contained(h) && NoBlockedResumes(h, run) ==> Contained(g))
  {
    hide Contained, ResumesBlocked, Step, Furnished;
    if run != [] {
      var init, last := run[..|run| - 1], run[|run| - 1];
      var g := After(h, init);
      RunTame(h, init);
      StepTame(g, last.0, last.1);
      if Furnished(h) { TameFurnished(g, last.0, Step(g, last.0, last.1)); }
    }
  }

  /** Any number of failovers, successful or not, and any other events leave the table
      pool where boot left it. */
  lemma TablePoolFixed(h: Hv, run: Run)
    requires Sized(h) && h.trust.up && Furnished(h)
    ensures Tables(After(h, run).s2) == Tables(h.s2)
  {
    RunTame(h, run);
  }

  /** A quarantined or revoked VM is never running between steps, unless a blocked VM
      was resumed by hypercall. */
  lemma BlockedNeverRuns(h: Hv, run: Run, i: int)
    requires Sized(h) && h.trust.up && Contained(h) && NoBlockedResumes(h, run) && 0 <= i < |h.vms|
    ensures var g := After(h, run);
            |g.vms| == |h.vms| && (Blocked(g.trust.recs[i].level) ==> g.vms[i].state != Running)
  {
    RunTame(h, run);
    assert CellContained(CellOf(After(h, run), i));
  }

  /** A VM that was revoked with its restart budget spent stays revoked and stopped under
      every later event, as long as it is not registered anew. */
  lemma {:induction false} SpentForGood(h: Hv, run: Run, i: int)
    requires Sized(h) && h.trust.up && 0 <= i < |h.vms| && Spent(CellOf(h, i))
    requires forall k :: 0 <= k < |run| ==> !(run[k].0.ERegister? && run[k].0.id == i + 1)
    ensures var g := After(h, run); |g.vms| == |h.vms| && Spent(CellOf(g, i))
  {
    hide Spent, Contained, ResumesBlocked, Step;
    if run != [] {
      var init, last := run[..|run| - 1], run[|run| - 1];
      SpentForGood(h, init, i);
      RunTame(h, init);
      StepTame(After(h, init), last.0, last.1);
    }
  }

  // ---------- runs with early registrations: the vCPU pool ----------

  /** Every registration on the way comes before the VM's first restart. */
  predicate EarlyRun(h: Hv, run: Run)
    requires Sized(h)
  {
    run == []
    || (EarlyRun(h, run[..|run| - 1]) && Early(After(h, run[..|run| - 1]), run[|run| - 1].0))
  }

  lemma {:induction false} RunBase(h: Hv, run: Run)
    requires Base(h) && EarlyRun(h, run)
    ensures Base(After(h, run)) && |After(h, run).vms| == |h.vms|
  {
    RunTame(h, run);
    if run != [] {
      var init, last := run[..|run| - 1], run[|run| - 1];
      RunBase(h, init);
      StepBase(After(h, init), last.0, last.1);
    }
  }

  /** The 16-entry vCPU pool is never exhausted: what was taken is exactly the boot
      vCPUs plus one set per restart, and a restart with budget left succeeds. */
  lemma VcpuPoolSuffices(h: Hv, run: Run, id: int, now: u64)
    requires Base(h) && EarlyRun(h, run) && Exists(h, id)
    ensures var g := After(h, run);
            && |g.vcpus| == Use(g, |g.vms|) <= 16
            && (g.backups[id - 1].registered ==>
                  FailoverTrigger(g, id, now).err == if g.backups[id - 1].count < 3 then Ok else Busy)
  {
    hide EarlyRun;
    RunBase(h, run);
    if After(h, run).backups[id - 1].registered {
      FailoverMove(After(h, run), id, now);
    }
  }

  // ---------- the fault budget ----------

  /** What a VM's records may come to: a trusted VM has fewer than 5 faults, a registered
      VM that is not revoked fewer than 15 plus its restarts, and no registered VM ever
      more than 18 faults or 3 restarts. */
  predicate InBudget(c: Cell) {
    && (c.level == Trusted ==> c.faults < 5)
    && (c.registered && c.level != Revoked ==> c.faults < 15 + c.count)
    && (c.registered ==> c.faults <= 18 && c.count <= 3)
  }

  /** From where the budget is kept. A registered VM must not be quarantined: nothing would
      answer its faults. A revoked one may have one fault more, as only a restart lets it run. */
  predicate CellOk(c: Cell) {
    && (c.level == Trusted ==> c.faults < THRESH_DEGRADED)
    && (c.registered ==>
          && c.level != Quarantine && c.count <= FAILOVER_MAX_ATTEMPTS
          && c.faults < THRESH_QUARANTINE + c.count + if c.level == Revoked then 1 else 0)
  }

  ghost predicate Sound(h: Hv) {
    Base(h) && forall i :: 0 <= i < |h.vms| ==> CellOk(CellOf(h, i))
  }

  /** In time also means before the VM was quarantined or reported too often. */
  predicate Admissible(h: Hv, e: Event)
    requires Sized(h)
  {
    e.ERegister? && Exists(h, e.id) && e.pa != 0 && e.size != 0 ==>
      var level, faults := h.trust.recs[e.id - 1].level, h.trust.recs[e.id - 1].faults;
      && h.backups[e.id - 1].count == 0 && level != Quarantine
      && faults < THRESH_QUARANTINE + if level == Revoked then 1 else 0
  }

  predicate AdmissibleRun(h: Hv, run: Run)
    requires Sized(h)
  {
    run == []
    || (AdmissibleRun(h, run[..|run| - 1]) && Admissible(After(h, run[..|run| - 1]), run[|run| - 1].0))
  }

  /** The same asked of one VM's registrations only. */
  predicate OwnAdmissible(h: Hv, e: Event, i: int)
    requires Sized(h)
  {
    e.ERegister? && e.id == i + 1 ==> Admissible(h, e)
  }

  predicate OwnAdmissibleRun(h: Hv, run: Run, i: int)
    requires Sized(h)
  {
    run == []
    || (OwnAdmissibleRun(h, run[..|run| - 1], i) && OwnAdmissible(After(h, run[..|run| - 1]), run[|run| - 1].0, i))
  }

  lemma CellsStayOk(c: Cell, e: Event)
    requires CellOk(c)
    requires e.ERegister? && e.pa != 0 && e.size != 0 ==> CellOk(c.(registered := true, count := 0))
    ensures CellOk(COwn(c, e))
  {
  }

  lemma FaultsStayOk(c: Cell, rec: TrustRec, now: u64, storm: bool)
    requires CellOk(c) && rec.level == c.level
    ensures CellOk(CFeed(c, storm)) && CellOk(CPromote(c, rec, now))
  {
  }

  lemma StepCellOk(h: Hv, e: Event, now: u64, i: int)
    requires Base(h) && 0 <= i < |h.vms| && CellOk(CellOf(h, i)) && OwnAdmissible(h, e, i)
    ensures |Step(h, e, now).vms| == |h.vms| && CellOk(CellOf(Step(h, e, now), i))
  {
    hide Base, Step, CFeed, COwn, StormNow;
    BaseSized(h);
    StepCell(h, e, now, i);
    var c := CellOf(h, i);
    FaultsStayOk(c, h.trust.recs[i], now, StormNow(h, i + 1, now));
    if !(e.ERegister? && e.id != i + 1) { CellsStayOk(c, e); }
  }

  lemma StepKeeps(h: Hv, e: Event, now: u64)
    requires Sound(h) && Admissible(h, e)
    ensures Sound(Step(h, e, now))
  {
    var g := Step(h, e, now);
    assert Early(h, e);
    StepBase(h, e, now);
    hide Step, CellOk, Admissible, Early;
    StepTame(h, e, now);
    forall i | 0 <= i < |g.vms| ensures CellOk(CellOf(g, i)) { StepCellOk(h, e, now, i); }
  }

  /** That is exactly when a registration leaves the machine sound. */
  lemma RegisterExact(h: Hv, e: Event, now: u64)
    requires Sound(h) && e.ERegister?
    ensures Sound(Step(h, e, now)) <==> Admissible(h, e)
  {
    EarlyExact(h, e, now);
    if Exists(h, e.id) { StepCell(h, e, now, e.id - 1); }
    if Admissible(h, e) { StepKeeps(h, e, now); }
  }

  lemma {:induction false} RunKeeps(h: Hv, run: Run)
    requires Sound(h) && AdmissibleRun(h, run)
    ensures Sound(After(h, run)) && |After(h, run).vms| == |h.vms|
  {
    RunTame(h, run);
    hide Evolved;
    if run != [] {
      var init, last := run[..|run| - 1], run[|run| - 1];
      RunKeeps(h, init);
      StepKeeps(After(h, init), last.0, last.1);
    }
  }

  lemma {:induction false} CellStaysOk(h: Hv, run: Run, i: int)
    requires Base(h) && EarlyRun(h, run) && 0 <= i < |h.vms| && CellOk(CellOf(h, i)) && OwnAdmissibleRun(h, run, i)
    ensures var g := After(h, run); |g.vms| == |h.vms| && CellOk(CellOf(g, i))
  {
    hide Base, Step, CellOk, Early, OwnAdmissible;
    BaseSized(h);
    if run != [] {
      var init, last := run[..|run| - 1], run[|run| - 1];
      RunBase(h, init);
      CellStaysOk(h, init, i);
      StepCellOk(After(h, init), last.0, last.1, i);
    }
  }

  /** Fault budget of one VM, whatever the others have come to. */
  lemma FaultBudget(h: Hv, run: Run, i: int)
    requires Base(h) && EarlyRun(h, run) && 0 <= i < |h.vms| && CellOk(CellOf(h, i)) && OwnAdmissibleRun(h, run, i)
    ensures var g := After(h, run); |g.vms| == |h.vms| && InBudget(CellOf(g, i))
  {
    CellStaysOk(h, run, i);
  }

  predicate TrustedOk(c: Cell) {
    c.level == Trusted ==> c.faults < THRESH_DEGRADED
  }

  lemma TrustedStep(p: Setting, u: Unit, e: Event, rec: TrustRec, now: u64, storm: bool)
    requires TrustedOk(u.cell) && rec.level == u.cell.level
    ensures TrustedOk(UFeed(p, u, storm).cell) && TrustedOk(UOwn(p, u, e).cell) && TrustedOk(UPromote(p, u, rec, now).cell)
  {
    hide UFailover;
    TrustedQuarantine(p, u);
    TrustedQuarantine(p, u.(cell := u.cell.(faults := Inc32(u.cell.faults))));
    TrustedFailover(p, u);
    hide UQuarantine;
    TrustedQuarantine(p, UReport(p, u));
  }

  lemma TrustedFailover(p: Setting, u: Unit)
    ensures TrustedOk(u.cell) ==> TrustedOk(UFailover(p, u).cell)
    ensures u.cell.level != Trusted ==> UFailover(p, u).cell.level != Trusted
    ensures UFailover(p, u).cell.faults == u.cell.faults
  {
  }

  lemma TrustedQuarantine(p: Setting, u: Unit)
    ensures TrustedOk(u.cell) ==> TrustedOk(UQuarantine(p, u).cell)
    ensures p.trust ==> UQuarantine(p, u).cell.level != Trusted
  {
    hide UFailover;
    TrustedFailover(p, UHold(p, u));
  }

  /** Fewer than 5 faults while trusted: over every run, from every state that has it. */
  lemma {:induction false} TrustedBudget(h: Hv, run: Run, i: int)
    requires Sized(h) && 0 <= i < |h.vms| && TrustedOk(CellOf(h, i))
    ensures var g := After(h, run); |g.vms| == |h.vms| && TrustedOk(CellOf(g, i))
  {
    if run != [] {
      hide Step, TrustedOk, UFeed, UOwn, UPromote, StormNow;
      var init, last := run[..|run| - 1], run[|run| - 1];
      TrustedBudget(h, init, i);
      var g := After(h, init);
      UnitStep(g, last.0, last.1, i);
      TrustedStep(SettingOf(g, i), UnitOf(g, i), last.0, g.trust.recs[i], last.1, StormNow(g, i + 1, last.1));
    }
  }

  // ---------- when the budget is kept ----------

  ghost predicate BudgetAlways(h: Hv, i: int)
    requires Sized(h)
  {
    forall run :: EarlyRun(h, run) && OwnAdmissibleRun(h, run, i) ==>
      var g := After(h, run); 0 <= i < |g.vms| && InBudget(CellOf(g, i))
  }

  /** Only faults charged to VM i. */
  predicate OnlyFaults(run: Run, i: int) {
    forall k :: 0 <= k < |run| ==> IsFault(run[k].0) && run[k].0.id == i + 1
  }

  lemma QuarantinedUnit(p: Setting, u: Unit, storm: bool)
    requires p.trust && u.cell.level == Quarantine
    ensures UFeed(p, u, storm).cell == u.cell.(faults := Inc32(u.cell.faults))
  {
  }

  lemma StatsUp(h: Hv, e: Event, now: u64)
    requires Sized(h)
    ensures Step(h, e, now).stats.up == h.stats.up
  {
    hide Feed, Poll, TrustQuarantine, TrustRevoke, TrustRestore, FailoverTrigger, FailoverRegister, VmStop;
  }

  lemma QuarantinedStep(h: Hv, e: Event, now: u64, i: int)
    requires Sized(h) && h.trust.up && h.stats.up && 0 <= i < |h.vms| && IsFault(e) && e.id == i + 1
    requires CellOf(h, i).level == Quarantine
    ensures var g, c := Step(h, e, now), CellOf(h, i);
            && |g.vms| == |h.vms| && g.trust.up && g.stats.up
            && CellOf(g, i) == c.(faults := Inc32(c.faults))
  {
    hide Step, UFeed, StormNow, Inc32;
    UnitStep(h, e, now, i);
    StatsUp(h, e, now);
    QuarantinedUnit(SettingOf(h, i), UnitOf(h, i), StormNow(h, i + 1, now));
  }

  /** As in `c`, but for n more faults on record. */
  predicate GoneOn(c: Cell, g: Hv, i: int, n: nat) {
    && Sized(g) && g.trust.up && g.stats.up && 0 <= i < |g.vms|
    && CellOf(g, i) == c.(faults := (c.faults + n) % 0x1_0000_0000)
  }

  lemma GoneOnStep(c: Cell, g: Hv, e: Event, now: u64, i: int, n: nat)
    requires c.level == Quarantine && GoneOn(c, g, i, n) && IsFault(e) && e.id == i + 1
    ensures |Step(g, e, now).vms| == |g.vms| && GoneOn(c, Step(g, e, now), i, n + 1)
  {
    hide Step, Inc32;
    QuarantinedStep(g, e, now, i);
    IncSum(c.faults, n);
  }

  /** Nothing answers the faults of a quarantined VM: it goes on as it was, storms or not. */
  lemma {:induction false} QuarantinedGoesOn(h: Hv, run: Run, i: int)
    requires Sized(h) && h.trust.up && h.stats.up && 0 <= i < |h.vms| && OnlyFaults(run, i)
    requires CellOf(h, i).level == Quarantine
    ensures |After(h, run).vms| == |h.vms| && GoneOn(CellOf(h, i), After(h, run), i, |run|)
  {
    var c := CellOf(h, i);
    if run == [] {
      DivMod(c.faults, 0x1_0000_0000, 0, c.faults);
    } else {
      hide Step, GoneOn;
      var init, last := run[..|run| - 1], run[|run| - 1];
      QuarantinedGoesOn(h, init, i);
      GoneOnStep(c, After(h, init), last.0, last.1, i, |init|);
    }
  }

  lemma {:induction false} NoRegistration(h: Hv, run: Run, i: int)
    requires Sized(h) && forall k :: 0 <= k < |run| ==> !run[k].0.ERegister?
    ensures EarlyRun(h, run) && OwnAdmissibleRun(h, run, i) && AdmissibleRun(h, run)
  {
    hide Step;
    if run != [] { NoRegistration(h, run[..|run| - 1], i); }
  }

  function Hammer(e: Event, now: u64, n: nat): (run: Run)
    ensures |run| == n && forall k :: 0 <= k < n ==> run[k] == (e, now)
  {
    seq(n, _ => (e, now))
  }

  /** Nineteen faults on record, and more whenever it is hammered. */
  lemma QuarantinedBreaks(h: Hv, i: int)
    requires Base(h) && h.stats.up && 0 <= i < |h.vms|
    requires CellOf(h, i).registered && CellOf(h, i).level == Quarantine
    ensures !BudgetAlways(h, i)
  {
    hide Base, After, EarlyRun, OwnAdmissibleRun, AdmissibleRun;
    BaseSized(h);
    BaseUp(h);
    var f := CellOf(h, i).faults;
    var run := Hammer(EDma(i + 1, 0), 0, if f <= 18 then 19 - f else 0);
    NoRegistration(h, run, i);
    QuarantinedGoesOn(h, run, i);
    DivMod(f + |run|, 0x1_0000_0000, 0, f + |run|);
    assert !InBudget(CellOf(After(h, run), i));
  }

  lemma UnfoldEmpty(h: Hv)
    requires Sized(h)
    ensures After(h, []) == h
  {
  }

  /** A manual failover of a revoked VM with one fault too many. */
  lemma TriggerBreaks(h: Hv, i: int)
    requires Base(h) && 0 <= i < |h.vms|
    requires var c := CellOf(h, i); c.registered && c.level == Revoked && c.count < 3 && c.faults > 15 + c.count
    ensures !BudgetAlways(h, i)
  {
    hide EarlyRun, OwnAdmissibleRun, AdmissibleRun, Step;
    BaseSized(h);
    var run: Run := [(ETrigger(i + 1), 0)];
    NoRegistration(h, run, i);
    StepCell(h, ETrigger(i + 1), 0, i);
    assert run[..0] == [] && After(h, run) == Step(h, ETrigger(i + 1), 0);
  }

  /** The budget is kept over all runs exactly from the states described above. */
  lemma BudgetExact(h: Hv, i: int)
    requires Base(h) && h.stats.up && 0 <= i < |h.vms|
    ensures BudgetAlways(h, i) <==> CellOk(CellOf(h, i))
  {
    BaseSized(h);
    hide Base, After, EarlyRun, OwnAdmissibleRun, AdmissibleRun;
    var c := CellOf(h, i);
    if CellOk(c) {
      forall run | EarlyRun(h, run) && OwnAdmissibleRun(h, run, i)
        ensures var g := After(h, run); 0 <= i < |g.vms| && InBudget(CellOf(g, i))
      {
        FaultBudget(h, run, i);
      }
    } else {
      NoRegistration(h, [], i);
      UnfoldEmpty(h);
      if c.registered && c.level == Quarantine { QuarantinedBreaks(h, i); }
      if c.registered && c.level == Revoked && c.count < 3 && c.faults > 15 + c.count { TriggerBreaks(h, i); }
    }
  }

  // ---------- revocation and storms, in any state ----------

  /** A manual failover that succeeds. */
  predicate Lifts(h: Hv, e: Event, i: int)
    requires Sized(h) && 0 <= i < |h.vms|
  {
    && e == ETrigger(i + 1) && h.trust.up && h.failoverUp && h.backups[i].registered
    && h.backups[i].count < FAILOVER_MAX_ATTEMPTS
    && AllAligned(h.vms[i].mem) && |h.vcpus| + VcpusOf(h.vms[i].kind) <= VCPU_POOL
  }

  lemma RevokedUnit(p: Setting, u: Unit, e: Event, rec: TrustRec, now: u64, storm: bool)
    requires u.cell.level == Revoked && rec.level == Revoked
    ensures UFeed(p, u, storm).cell.level == Revoked && UPromote(p, u, rec, now).cell.level == Revoked
    ensures UOwn(p, u, e).cell.level != Revoked <==>
              && e.ETrigger? && p.trust && p.failover && u.cell.registered && u.cell.count < FAILOVER_MAX_ATTEMPTS
              && p.aligned && p.need <= u.free
  {
  }

  /** Exactly that lifts a revocation. */
  lemma RevocationLifted(h: Hv, e: Event, now: u64, i: int)
    requires Sized(h) && 0 <= i < |h.vms| && h.trust.recs[i].level == Revoked
    ensures |Step(h, e, now).vms| == |h.vms|
    ensures Step(h, e, now).trust.recs[i].level != Revoked <==> Lifts(h, e, i)
  {
    hide Step, UFeed, UOwn, UPromote, StormNow, AllAligned;
    UnitStep(h, e, now, i);
    assert CellOf(Step(h, e, now), i).level == Step(h, e, now).trust.recs[i].level;
    RevokedUnit(SettingOf(h, i), UnitOf(h, i), e, h.trust.recs[i], now, StormNow(h, i + 1, now));
  }

  predicate NeverLifted(h: Hv, run: Run, i: int)
    requires Sized(h)
  {
    run == []
    || (var init, g := run[..|run| - 1], After(h, run[..|run| - 1]);
        NeverLifted(h, init, i) && !(0 <= i < |g.vms| && Lifts(g, run[|run| - 1].0, i)))
  }

  /** Faults, storms, polls and all other events leave a revoked VM revoked. */
  lemma {:induction false} RevokedStays(h: Hv, run: Run, i: int)
    requires Sized(h) && 0 <= i < |h.vms| && h.trust.recs[i].level == Revoked && NeverLifted(h, run, i)
    ensures var g := After(h, run); |g.vms| == |h.vms| && g.trust.recs[i].level == Revoked
  {
    hide Step, Lifts;
    if run != [] {
      RevokedStays(h, run[..|run| - 1], i);
      RevocationLifted(After(h, run[..|run| - 1]), run[|run| - 1].0, run[|run| - 1].1, i);
    }
  }

  lemma StormUnitAnswered(p: Setting, u: Unit)
    requires p.trust
    ensures var v := UFeed(p, u, true);
            && (!Armed(p, u) ==> Blocked(v.cell.level))
            && (Armed(p, u) ==> (v.cell.level == Revoked || v.cell.count > u.cell.count <==> u.cell.level != Quarantine))
  {
  }

  /** Right after the fault that raises the storm alert: a VM without failover is blocked;
      one with failover is revoked or was restarted by this report, exactly unless it was
      quarantined before - then nothing answers. */
  lemma StormAnswered(h: Hv, e: Event, now: u64, i: int)
    requires Sized(h) && h.trust.up && IsFault(e) && h.stats.up && 0 <= i < |h.vms| && e.id == i + 1
    requires StormNow(h, i + 1, now)
    ensures var g := Step(h, e, now);
            var armed := h.failoverUp && h.backups[i].registered && h.backups[i].critical;
            && |g.vms| == |h.vms|
            && (!armed ==> Blocked(g.trust.recs[i].level))
            && (armed ==> (g.trust.recs[i].level == Revoked || g.backups[i].count > h.backups[i].count
                           <==> h.trust.recs[i].level != Quarantine))
  {
    hide Step, UFeed, StormNow, AllAligned;
    UnitStep(h, e, now, i);
    StormUnitAnswered(SettingOf(h, i), UnitOf(h, i));
    var c := CellOf(Step(h, e, now), i);
    assert c.level == Step(h, e, now).trust.recs[i].level && c.count == Step(h, e, now).backups[i].count;
  }
}
