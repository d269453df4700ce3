/** The monitor inside the running hypervisor: over every run, what it records of a VM
    is what the detectors make of the VM's faults and levels, and its counters add up. */
module HvMonitor {
  import opened Words
  import opened HvSpec
  import opened StormWindow
  import opened Detectors
  import HvCells
  import HvRuns

  /** What the records of this kind say about this VM. */
  function Recorded(log: seq<Record>, id: int, kind: EventKind): seq<Entry> {
    if log == [] then []
    else
      var r := log[|log| - 1];
      Recorded(log[..|log| - 1], id, kind)
      + if r.kind == kind && r.vm == id then [Entry(r.time, r.faultType, r.detail)] else []
  }

  /** The monitor's state for this VM; id 0 stands for the monitor itself. */
  function MonOf(h: Hv, id: int): Mon
    requires Sized(h)
  {
    if ValidId(id) then h.ids.mon[id - 1] else Mon(0, 0, 0, 0, 0, Unknown)
  }

  /** The monitor's state for this VM, and the records of this kind it added. */
  predicate Noted(h: Hv, g: Hv, id: int, kind: EventKind, m: Mon, added: seq<Entry>)
    requires Sized(h) && Sized(g)
  {
    && g.ids.up == h.ids.up && MonOf(g, id) == m
    && Recorded(g.ids.log, id, kind) == Recorded(h.ids.log, id, kind) + added
  }

  lemma LogNoted(h: Hv, vm: int, what: EventKind, sev: Severity, faultType: u32, detail: u64, now: u64, id: int, kind: EventKind)
    requires Sized(h)
    ensures Noted(h, Log(h, vm, what, sev, faultType, detail, now), id, kind, MonOf(h, id),
                  if what == kind && vm == id then [Entry(now, faultType, detail)] else [])
  {
    var g := Log(h, vm, what, sev, faultType, detail, now);
    assert g.ids.log[..|h.ids.log|] == h.ids.log;
  }

  // ---------- one fault ----------

  function WindowOf(m: Mon): Window {
    Window(m.start, m.faults)
  }

  function RunNext(m: Mon, faultType: u32): u32 {
    if faultType == m.lastType then Inc32(m.run) else 1
  }

  function FirstNext(m: Mon, hit: Hit): u64 {
    if Fires(m.first, hit) then 0 else Opening(m.first, hit)
  }

  function MonNext(m: Mon, hit: Hit): Mon {
    var w := Tick(WindowOf(m), hit.time);
    Mon(w.start, w.count, FirstNext(m, hit), hit.faultType, RunNext(m, hit.faultType), m.seen)
  }

  /** `free`: the storm alert found the VM not blocked. */
  function Raised(m: Mon, hit: Hit, detail: u64, free: bool, kind: EventKind): seq<Entry> {
    match kind
    case EvFault => [Entry(hit.time, hit.faultType, detail)]
    case EvRepeat => if RunNext(m, hit.faultType) == 3 then [Entry(hit.time, hit.faultType, 3)] else []
    case EvStorm => if Raises(WindowOf(m), hit.time) then [Entry(hit.time, hit.faultType, 5)] else []
    case EvEnforce => if Raises(WindowOf(m), hit.time) && free then [Entry(hit.time, hit.faultType, 5)] else []
    case EvRapid =>
      if Fires(m.first, hit) then [Entry(hit.time, hit.faultType, Sub64(hit.time, Opening(m.first, hit)))] else []
    case _ => []
  }

  lemma EvidenceNoted(h: Hv, vm: int, faultType: u32, detail: u64, now: u64, id: int, kind: EventKind)
    requires Sized(h) && ValidId(vm)
    ensures var m := MonOf(h, id);
            Noted(h, Evidence(h, vm, faultType, detail, now), id, kind,
                  if vm == id && m.first == 0 then m.(first := now) else m,
                  if vm == id && kind == EvFault then [Entry(now, faultType, detail)] else [])
  {
    LogNoted(h, vm, EvFault, Warn, faultType, detail, now, id, kind);
  }

  lemma RepeatNoted(h: Hv, vm: int, faultType: u32, now: u64, id: int, kind: EventKind)
    requires Sized(h) && ValidId(vm)
    ensures var m := MonOf(h, id);
            Noted(h, RepeatStage(h, vm, faultType, now), id, kind,
                  if vm == id then m.(run := RunNext(m, faultType), lastType := faultType) else m,
                  if vm == id && kind == EvRepeat && RunNext(m, faultType) == 3 then [Entry(now, faultType, 3)] else [])
  {
    hide Recorded;
    var m := h.ids.mon[vm - 1];
    var run := Inc32(m.run);
    LogNoted(Anomaly(WithMon(h, vm, m.(run := run))), vm, EvRepeat, Alert, faultType, run, now, id, kind);
  }

  lemma EnforceNoted(h: Hv, vm: int, faultType: u32, count: u32, now: u64, id: int, kind: EventKind)
    requires Sized(h) && ValidId(vm)
    ensures Noted(h, Enforce(h, vm, faultType, count, now), id, kind, MonOf(h, id),
                  if vm == id && kind == EvEnforce && !Blocked(TrustGet(h, id)) then [Entry(now, faultType, count)] else [])
  {
    hide TrustQuarantine;
    var q := TrustQuarantine(h, vm, now).hv;
    LogNoted(q.(ids := q.ids.(enforcements := Inc32(q.ids.enforcements))), vm, EvEnforce, Alert, faultType, count, now, id, kind);
  }

  lemma RaiseNoted(h: Hv, vm: int, faultType: u32, count: u32, now: u64, id: int, kind: EventKind)
    requires Sized(h) && ValidId(vm)
    ensures Noted(h, Enforce(Log(Anomaly(h), vm, EvStorm, Alert, faultType, count, now), vm, faultType, count, now), id, kind,
                  MonOf(h, id),
                  if vm == id && (kind == EvStorm || (kind == EvEnforce && !Blocked(TrustGet(h, id))))
                  then [Entry(now, faultType, count)] else [])
  {
    hide Enforce, Recorded, Log;
    LogNoted(Anomaly(h), vm, EvStorm, Alert, faultType, count, now, id, kind);
    EnforceNoted(Log(Anomaly(h), vm, EvStorm, Alert, faultType, count, now), vm, faultType, count, now, id, kind);
  }

  lemma StormNoted(h: Hv, vm: int, faultType: u32, now: u64, id: int, kind: EventKind)
    requires Sized(h) && ValidId(vm)
    ensures var m := MonOf(h, id);
            var w := Tick(WindowOf(m), now);
            Noted(h, StormStage(h, vm, faultType, now), id, kind,
                  if vm == id then m.(start := w.start, faults := w.count) else m,
                  if vm == id && Raises(WindowOf(m), now) && (kind == EvStorm || (kind == EvEnforce && !Blocked(TrustGet(h, id))))
                  then [Entry(now, faultType, 5)] else [])
  {
    hide Enforce, Recorded, Log;
    var m := h.ids.mon[vm - 1];
    var count := Inc32(m.faults);
    RaiseNoted(WithMon(h, vm, m.(faults := count)), vm, faultType, count, now, id, kind);
  }

  /** An open first fault is closed by an alert. */
  lemma RapidNoted(h: Hv, vm: int, faultType: u32, now: u64, id: int, kind: EventKind)
    requires Sized(h) && ValidId(vm)
    ensures var m := MonOf(h, id);
            var fires := vm == id && Blocked(TrustGet(h, id)) && m.first != 0 && Sub64(now, m.first) < RAPID_WINDOW;
            Noted(h, RapidStage(h, vm, faultType, now), id, kind,
                  if fires then m.(first := 0) else m,
                  if fires && kind == EvRapid then [Entry(now, faultType, Sub64(now, m.first))] else [])
  {
    LogNoted(Anomaly(h), vm, EvRapid, Alert, faultType, Sub64(now, h.ids.mon[vm - 1].first), now, id, kind);
  }

  lemma NotifyNoted(h: Hv, vm: int, faultType: u32, detail: u64, now: u64, id: int, kind: EventKind)
    requires Sized(h) && ValidId(vm) && h.ids.up
    ensures var g, m := NotifyFault(h, vm, faultType, detail, now), MonOf(h, id);
            var hit, free := Hit(now, faultType, Blocked(TrustGet(g, id))), !Blocked(TrustGet(h, id));
            Noted(h, g, id, kind, if vm == id then MonNext(m, hit) else m,
                  if vm == id then Raised(m, hit, detail, free, kind) else [])
  {
    hide Evidence, RepeatStage, StormStage, RapidStage, Tick, Raises, Recorded;
    var a := Evidence(h, vm, faultType, detail, now);
    var b := RepeatStage(a, vm, faultType, now);
    var c := StormStage(b, vm, faultType, now);
    EvidenceNoted(h, vm, faultType, detail, now, id, kind);
    RepeatNoted(a, vm, faultType, now, id, kind);
    StormNoted(b, vm, faultType, now, id, kind);
    RapidNoted(c, vm, faultType, now, id, kind);
  }

  lemma FeedNoted(h: Hv, g: Hv, vm: int, faultType: u32, detail: u64, now: u64, id: int, kind: EventKind)
    requires Sized(h) && Sized(g) && g == h.(stats := g.stats) && h.ids.up
    ensures var r, m := Feed(g, vm, faultType, detail, now), MonOf(h, id);
            var hit := Hit(now, faultType, Blocked(TrustGet(r, id)));
            var free := !Blocked(TrustGet(ReportFault(g, vm, faultType, detail, now).hv, id));
            Noted(h, r, id, kind, if vm == id && ValidId(id) then MonNext(m, hit) else m,
                  if vm == id && ValidId(id) then Raised(m, hit, detail, free, kind) else [])
  {
    hide NotifyFault, ReportFault, MonNext, Raised, Recorded;
    if ValidId(vm) {
      NotifyNoted(ReportFault(g, vm, faultType, detail, now).hv, vm, faultType, detail, now, id, kind);
    }
  }

  // ---------- one poll ----------

  function Fallen(h: Hv, id: int, now: u64): seq<Entry>
    requires Sized(h)
  {
    if ValidId(id) && Dropped(h, id)
    then [Entry(now, 0, 256 * h.ids.mon[id - 1].seen.Rank() + TrustGet(h, id).Rank())] else []
  }

  lemma PollOneNoted(h: Hv, vm: int, now: u64, id: int, kind: EventKind)
    requires Sized(h) && ValidId(vm)
    ensures var m := MonOf(h, id);
            Noted(h, PollOne(h, vm, now), id, kind, if vm == id then m.(seen := TrustGet(h, id)) else m,
                  if vm == id && kind == EvTrustDrop then Fallen(h, id, now) else [])
  {
    hide Recorded;
    var detail := 256 * h.ids.mon[vm - 1].seen.Rank() + TrustGet(h, vm).Rank();
    LogNoted(Anomaly(h), vm, EvTrustDrop, Alert, 0, detail, now, id, kind);
  }

  lemma {:induction false} ScanNoted(h: Hv, n: nat, now: u64, id: int, kind: EventKind)
    requires Sized(h) && n <= MAX_VMS
    ensures var m, looked := MonOf(h, id), 1 <= id <= n;
            Noted(h, PollScan(h, n, now), id, kind, if looked then m.(seen := TrustGet(h, id)) else m,
                  if looked && kind == EvTrustDrop then Fallen(h, id, now) else [])
  {
    hide PollOne, Recorded;
    if n > 0 {
      ScanNoted(h, n - 1, now, id, kind);
      PollOneNoted(PollScan(h, n - 1, now), n, now, id, kind);
    }
  }

  /** What a poll records: a fall of the VM, or for id 0 the heartbeat with the total. */
  function PollAdds(h: Hv, id: int, now: u64, kind: EventKind): seq<Entry>
    requires Sized(h)
  {
    if kind == EvTrustDrop then Fallen(h, id, now)
    else if kind == EvPoll && id == 0 then [Entry(now, 0, h.trust.total)] else []
  }

  lemma PollNoted(h: Hv, now: u64, id: int, kind: EventKind)
    requires Sized(h) && h.ids.up
    ensures Noted(h, Poll(h, now), id, kind,
                  if ValidId(id) then MonOf(h, id).(seen := TrustGet(h, id)) else MonOf(h, id), PollAdds(h, id, now, kind))
  {
    hide PollScan, Promote, Recorded, Dropped;
    ScanNoted(h, MAX_VMS, now, id, kind);
    var p := Promote(PollScan(h, MAX_VMS, now), MAX_VMS, now);
    PromoteTotal(PollScan(h, MAX_VMS, now), MAX_VMS, now);
    LogNoted(p, 0, EvPoll, Info, 0, p.trust.total, now, id, kind);
  }

  lemma {:induction false} PromoteTotal(h: Hv, n: nat, now: u64)
    requires Sized(h) && n <= MAX_VMS
    ensures Promote(h, n, now).trust.total == h.trust.total
  {
    if n > 0 && h.trust.up { PromoteTotal(h, n - 1, now); }
  }

  // ---------- every event ----------

  /** The event is a fault charged to this VM. */
  predicate FaultOf(e: Event, id: int) {
    (e.EMemFault? || e.EDma?) && e.id == id && ValidId(id)
  }

  /** What is reported about a fault: type 1 for memory and 2 for DMA, and the address,
      whose top bit tells a write. */
  function EntryOf(e: Event, now: u64): Entry
    requires e.EMemFault? || e.EDma?
  {
    match e
    case EMemFault(_, ipa, w) =>
      Entry(now, 1, if w && ipa < 0x8000_0000_0000_0000 then ipa + 0x8000_0000_0000_0000 else ipa)
    case EDma(_, pa) => Entry(now, 2, pa)
  }

  function HitBy(h: Hv, e: Event, now: u64, id: int): Hit
    requires Sized(h) && FaultOf(e, id)
  {
    Hit(now, EntryOf(e, now).faultType, Blocked(TrustGet(Step(h, e, now), id)))
  }

  /** The fault itself, once counted, leaves the VM not blocked. */
  predicate FoundFree(h: Hv, e: Event, now: u64, id: int)
    requires Sized(h) && FaultOf(e, id)
  {
    var f := EntryOf(e, now);
    !Blocked(TrustGet(ReportFault(HvCells.Charged(h, e), id, f.faultType, f.detail, now).hv, id))
  }

  function MonStep(h: Hv, e: Event, now: u64, id: int): Mon
    requires Sized(h)
  {
    var m := MonOf(h, id);
    if FaultOf(e, id) then MonNext(m, HitBy(h, e, now, id))
    else if e.EPoll? && ValidId(id) then m.(seen := TrustGet(h, id))
    else m
  }

  function Added(h: Hv, e: Event, now: u64, id: int, kind: EventKind): seq<Entry>
    requires Sized(h)
  {
    if FaultOf(e, id)
    then Raised(MonOf(h, id), HitBy(h, e, now, id), EntryOf(e, now).detail, FoundFree(h, e, now, id), kind)
    else if e.EPoll? then PollAdds(h, id, now, kind)
    else []
  }

  predicate Watching(h: Hv) {
    h.ids.up && h.stats.up
  }

  lemma FaultNoted(h: Hv, e: Event, now: u64, id: int, kind: EventKind)
    requires Sized(h) && Watching(h) && (e.EMemFault? || e.EDma?)
    ensures var g := Step(h, e, now);
            g.stats.up && Noted(h, g, id, kind, MonStep(h, e, now, id), Added(h, e, now, id, kind))
  {
    hide Feed, MonNext, Raised, Recorded, ReportFault;
    FeedNoted(h, HvCells.Charged(h, e), e.id, EntryOf(e, now).faultType, EntryOf(e, now).detail, now, id, kind);
  }

  lemma StepNoted(h: Hv, e: Event, now: u64, id: int, kind: EventKind)
    requires Sized(h) && Watching(h)
    ensures var g := Step(h, e, now);
            Watching(g) && Noted(h, g, id, kind, MonStep(h, e, now, id), Added(h, e, now, id, kind))
  {
    hide MemFault, DmaViolation, Poll, MonNext, Raised, Recorded, PollAdds, FoundFree;
    if e.EMemFault? || e.EDma? {
      FaultNoted(h, e, now, id, kind);
    } else if e.EPoll? {
      PollNoted(h, now, id, kind);
    }
  }

  // ---------- whole runs ----------

  /** The faults charged to this VM, in order. */
  function Faults(run: HvRuns.Run, id: int): seq<Entry> {
    if run == [] then []
    else
      var init, last := Faults(run[..|run| - 1], id), run[|run| - 1];
      if FaultOf(last.0, id) then init + [EntryOf(last.0, last.1)] else init
  }

  lemma {:induction false} StaysWatching(h: Hv, run: HvRuns.Run)
    requires Sized(h) && Watching(h)
    ensures Watching(HvRuns.After(h, run))
  {
    hide Step;
    if run != [] {
      StaysWatching(h, run[..|run| - 1]);
      StepNoted(HvRuns.After(h, run[..|run| - 1]), run[|run| - 1].0, run[|run| - 1].1, 1, EvFault);
    }
  }

  /** What `StepNoted` says, from the state a run has come to. */
  lemma NextNoted(h: Hv, run: HvRuns.Run, e: Event, now: u64, id: int, kind: EventKind)
    requires Sized(h) && Watching(h)
    ensures var g := HvRuns.After(h, run);
            Noted(g, Step(g, e, now), id, kind, MonStep(g, e, now, id), Added(g, e, now, id, kind))
  {
    hide Noted, MonStep, Added, Step, HvRuns.After;
    StaysWatching(h, run);
    StepNoted(HvRuns.After(h, run), e, now, id, kind);
  }

  lemma Joined(a: seq<Entry>, b: seq<Entry>, c: seq<Entry>)
    ensures a + b + c == a + (b + c)
    ensures a + [] == a
  {
  }

  /** Over any run, every fault charged to a VM is on record, with its address, in order,
      and nothing else is. */
  lemma {:induction false} FaultsOnRecord(h: Hv, run: HvRuns.Run, id: int)
    requires Sized(h) && ValidId(id) && Watching(h)
    ensures Recorded(HvRuns.After(h, run).ids.log, id, EvFault)
         == Recorded(h.ids.log, id, EvFault) + Faults(run, id)
  {
    if run != [] {
      hide Recorded, MonStep, Step;
      var init, last := run[..|run| - 1], run[|run| - 1];
      FaultsOnRecord(h, init, id);
      NextNoted(h, init, last.0, last.1, id, EvFault);
    }
  }

  // ---------- repeats ----------

  predicate RepeatsMatch(h: Hv, g: Hv, id: int, faults: seq<Entry>)
    requires Sized(h) && Sized(g) && ValidId(id)
  {
    var m, d := h.ids.mon[id - 1], g.ids.mon[id - 1];
    && d.lastType == LastType(m.lastType, faults)
    && d.run == Streak(m.lastType, m.run, faults) % 0x1_0000_0000
    && Recorded(g.ids.log, id, EvRepeat) == Recorded(h.ids.log, id, EvRepeat) + Repeats(m.lastType, m.run, faults)
  }

  lemma RepeatStep(h: Hv, g: Hv, k: Hv, e: Event, now: u64, id: int, faults: seq<Entry>)
    requires Sized(h) && Sized(g) && Sized(k) && ValidId(id) && RepeatsMatch(h, g, id, faults)
    requires Noted(g, k, id, EvRepeat, MonStep(g, e, now, id), Added(g, e, now, id, EvRepeat))
    ensures RepeatsMatch(h, k, id, if FaultOf(e, id) then faults + [EntryOf(e, now)] else faults)
  {
    hide Recorded, Step, Streak, Repeats, LastType, Tick, Fires, Opening;
    var m, added := h.ids.mon[id - 1], Added(g, e, now, id, EvRepeat);
    Joined(Recorded(h.ids.log, id, EvRepeat), Repeats(m.lastType, m.run, faults), added);
    if FaultOf(e, id) {
      OneMoreFault(m.lastType, m.run, faults, EntryOf(e, now));
      ModAdd(Streak(m.lastType, m.run, faults), 1);
      assert k.ids.mon[id - 1].run == Streak(m.lastType, m.run, faults + [EntryOf(e, now)]) % 0x1_0000_0000;
    }
  }

  /** Over any run, the repeat records added for a VM are those of its fault types. */
  lemma {:induction false} RepeatsOnRecord(h: Hv, run: HvRuns.Run, id: int)
    requires Sized(h) && ValidId(id) && Watching(h)
    ensures RepeatsMatch(h, HvRuns.After(h, run), id, Faults(run, id))
  {
    if run == [] {
      DivMod(h.ids.mon[id - 1].run, 0x1_0000_0000, 0, h.ids.mon[id - 1].run);
    } else {
      hide RepeatsMatch, Noted, MonStep, Added, Step;
      var init, last := run[..|run| - 1], run[|run| - 1];
      RepeatsOnRecord(h, init, id);
      NextNoted(h, init, last.0, last.1, id, EvRepeat);
      RepeatStep(h, HvRuns.After(h, init), HvRuns.After(h, run), last.0, last.1, id, Faults(init, id));
    }
  }

  lemma {:induction false} FaultTypes(run: HvRuns.Run, id: int)
    ensures forall i :: 0 <= i < |Faults(run, id)| ==> Faults(run, id)[i].faultType != 0
  {
    if run != [] { FaultTypes(run[..|run| - 1], id); }
  }

  /** So, from boot on, a fault adds a repeat record exactly when it is the third in a row
      of its type (or the third after the 32-bit count of the row has wrapped). */
  lemma ThirdInARow(h: Hv, run: HvRuns.Run, id: int)
    requires Sized(h) && ValidId(id) && Watching(h) && run != [] && FaultOf(run[|run| - 1].0, id)
    requires h.ids.mon[id - 1].lastType == 0 && h.ids.mon[id - 1].run == 0
    ensures var init, f := run[..|run| - 1], EntryOf(run[|run| - 1].0, run[|run| - 1].1);
            Recorded(HvRuns.After(h, run).ids.log, id, EvRepeat)
            == Recorded(HvRuns.After(h, init).ids.log, id, EvRepeat)
               + if exists n :: EndsWith(Faults(run, id), n) && n % 0x1_0000_0000 == 3
                 then [Entry(f.time, f.faultType, 3)] else []
  {
    hide HvRuns.After, Step, Recorded, EndsWith, Streak;
    var init, fs := run[..|run| - 1], Faults(run, id);
    RepeatsOnRecord(h, init, id);
    RepeatsOnRecord(h, run, id);
    FaultTypes(run, id);
    forall n | EndsWith(fs, n) ensures n == Streak(0, 0, fs) { StreakExact(fs, n); }
    StreakExact(fs, Streak(0, 0, fs));
    assert fs[..|fs| - 1] == Faults(init, id);
  }

  // ---------- rapid escalation ----------

  /** The faults of this VM, and whether each left it blocked. */
  function Hits(h: Hv, run: HvRuns.Run, id: int): seq<Hit>
    requires Sized(h)
  {
    if run == [] then []
    else
      var init, last := run[..|run| - 1], run[|run| - 1];
      if FaultOf(last.0, id) then Hits(h, init, id) + [HitBy(HvRuns.After(h, init), last.0, last.1, id)]
      else Hits(h, init, id)
  }

  predicate RapidsMatch(h: Hv, g: Hv, id: int, hits: seq<Hit>)
    requires Sized(h) && Sized(g) && ValidId(id)
  {
    var first := h.ids.mon[id - 1].first;
    && g.ids.mon[id - 1].first == Open(first, hits)
    && Recorded(g.ids.log, id, EvRapid) == Recorded(h.ids.log, id, EvRapid) + Rapids(first, hits)
  }

  lemma RapidStep(h: Hv, g: Hv, k: Hv, e: Event, now: u64, id: int, hits: seq<Hit>)
    requires Sized(h) && Sized(g) && Sized(k) && ValidId(id) && RapidsMatch(h, g, id, hits)
    requires Noted(g, k, id, EvRapid, MonStep(g, e, now, id), Added(g, e, now, id, EvRapid))
    ensures RapidsMatch(h, k, id, if FaultOf(e, id) then hits + [HitBy(g, e, now, id)] else hits)
  {
    hide Recorded, Step, Open, Rapids, Tick, Fires, Opening;
    var first, added := h.ids.mon[id - 1].first, Added(g, e, now, id, EvRapid);
    Joined(Recorded(h.ids.log, id, EvRapid), Rapids(first, hits), added);
    if FaultOf(e, id) { OneMoreHit(first, hits, HitBy(g, e, now, id)); }
  }

  /** Over any run, the escalation records added for a VM are those of its hits. */
  lemma {:induction false} RapidsOnRecord(h: Hv, run: HvRuns.Run, id: int)
    requires Sized(h) && ValidId(id) && Watching(h)
    ensures RapidsMatch(h, HvRuns.After(h, run), id, Hits(h, run, id))
  {
    if run != [] {
      hide RapidsMatch, Noted, MonStep, Added, Step, HitBy;
      var init, last := run[..|run| - 1], run[|run| - 1];
      RapidsOnRecord(h, init, id);
      NextNoted(h, init, last.0, last.1, id, EvRapid);
      RapidStep(h, HvRuns.After(h, init), HvRuns.After(h, run), last.0, last.1, id, Hits(h, init, id));
    }
  }

  // ---------- lost trust ----------

  /** The levels this VM is polled at. */
  function Looks(h: Hv, run: HvRuns.Run, id: int): seq<Look>
    requires Sized(h)
  {
    if run == [] then []
    else
      var init, last := run[..|run| - 1], run[|run| - 1];
      if last.0.EPoll? then Looks(h, init, id) + [Look(last.1, TrustGet(HvRuns.After(h, init), id))]
      else Looks(h, init, id)
  }

  predicate FallsMatch(h: Hv, g: Hv, id: int, looks: seq<Look>)
    requires Sized(h) && Sized(g) && ValidId(id)
  {
    var seen := h.ids.mon[id - 1].seen;
    && g.ids.mon[id - 1].seen == LastLook(seen, looks)
    && Recorded(g.ids.log, id, EvTrustDrop) == Recorded(h.ids.log, id, EvTrustDrop) + Falls(seen, looks)
  }

  lemma FallStep(h: Hv, g: Hv, k: Hv, e: Event, now: u64, id: int, looks: seq<Look>)
    requires Sized(h) && Sized(g) && Sized(k) && ValidId(id) && FallsMatch(h, g, id, looks)
    requires Noted(g, k, id, EvTrustDrop, MonStep(g, e, now, id), Added(g, e, now, id, EvTrustDrop))
    ensures FallsMatch(h, k, id, if e.EPoll? then looks + [Look(now, TrustGet(g, id))] else looks)
  {
    hide Recorded, Step, LastLook, Falls, Tick, Fires, Opening, TrustGet;
    var seen, added := h.ids.mon[id - 1].seen, Added(g, e, now, id, EvTrustDrop);
    Joined(Recorded(h.ids.log, id, EvTrustDrop), Falls(seen, looks), added);
    if e.EPoll? { OneMoreLook(seen, looks, Look(now, TrustGet(g, id))); }
  }

  /** Over any run, the trust-drop records added for a VM are the falls between polls. */
  lemma {:induction false} FallsOnRecord(h: Hv, run: HvRuns.Run, id: int)
    requires Sized(h) && ValidId(id) && Watching(h)
    ensures FallsMatch(h, HvRuns.After(h, run), id, Looks(h, run, id))
  {
    if run != [] {
      hide FallsMatch, Noted, MonStep, Added, Step, TrustGet;
      var init, last := run[..|run| - 1], run[|run| - 1];
      FallsOnRecord(h, init, id);
      NextNoted(h, init, last.0, last.1, id, EvTrustDrop);
      FallStep(h, HvRuns.After(h, init), HvRuns.After(h, run), last.0, last.1, id, Looks(h, init, id));
    }
  }

  /** A poll promotes after it has looked: when the VM then falls back to degraded the
      next poll finds no fall, only a fall to quarantine or below. */
  lemma PromotionHidesFall(h: Hv, now: u64, id: int, g: Hv)
    requires Sized(h) && Watching(h) && h.trust.up && ValidId(id) && Promotable(h.trust.recs[id - 1], now)
    requires Sized(g) && g.ids.mon[id - 1].seen == Poll(h, now).ids.mon[id - 1].seen
    ensures TrustGet(Poll(h, now), id) == Trusted
    ensures Dropped(g, id) <==> Blocked(TrustGet(g, id))
  {
    PollNoted(h, now, id, EvPoll);
    PromotedAt(PollScan(h, MAX_VMS, now), MAX_VMS, id, now);
  }

  lemma PromoteOneAt(h: Hv, vm: int, id: int, now: u64)
    requires Sized(h) && h.trust.up && ValidId(id) && ValidId(vm)
    ensures var g, rec := PromoteOne(h, vm, now), h.trust.recs[id - 1];
            && g.trust.up
            && (vm != id ==> g.trust.recs[id - 1] == rec)
            && (vm == id && Promotable(rec, now) ==> g.trust.recs[id - 1].level == Trusted)
  {
  }

  lemma {:induction false} PromotedAt(h: Hv, n: nat, id: int, now: u64)
    requires Sized(h) && h.trust.up && ValidId(id) && n <= MAX_VMS && Promotable(h.trust.recs[id - 1], now)
    ensures var g := Promote(h, n, now);
            && g.trust.up
            && if n >= id then g.trust.recs[id - 1].level == Trusted else g.trust.recs[id - 1] == h.trust.recs[id - 1]
  {
    hide PromoteOne;
    if n > 0 {
      PromotedAt(h, n - 1, id, now);
      PromoteOneAt(Promote(h, n - 1, now), n, id, now);
    }
  }

  // ---------- storms ----------

  function Times(entries: seq<Entry>): (ts: seq<int>)
    ensures |ts| == |entries|
  {
    if entries == [] then [] else Times(entries[..|entries| - 1]) + [entries[|entries| - 1].time]
  }

  lemma OneMoreTime(entries: seq<Entry>, e: Entry)
    ensures Times(entries + [e]) == Times(entries) + [e.time]
  {
    assert (entries + [e])[..|entries|] == entries;
  }

  /** When storms of this VM were recorded. */
  function StormTimes(log: seq<Record>, id: int): seq<int> {
    Times(Recorded(log, id, EvStorm))
  }

  predicate StormsMatch(h: Hv, g: Hv, id: int, ts: seq<int>)
    requires Sized(h) && Sized(g) && ValidId(id)
  {
    var w := WindowOf(h.ids.mon[id - 1]);
    && WindowOf(g.ids.mon[id - 1]) == Ticks(w, ts)
    && StormTimes(g.ids.log, id) == StormTimes(h.ids.log, id) + Alerts(w, ts)
  }

  lemma StormStep(h: Hv, g: Hv, k: Hv, e: Event, now: u64, id: int, faults: seq<Entry>)
    requires Sized(h) && Sized(g) && Sized(k) && ValidId(id) && StormsMatch(h, g, id, Times(faults))
    requires Noted(g, k, id, EvStorm, MonStep(g, e, now, id), Added(g, e, now, id, EvStorm))
    ensures StormsMatch(h, k, id, Times(if FaultOf(e, id) then faults + [EntryOf(e, now)] else faults))
  {
    hide Recorded, Step, Ticks, Alerts, Times, Tick, Raises, Fires, Opening;
    var w, log := WindowOf(h.ids.mon[id - 1]), Recorded(g.ids.log, id, EvStorm);
    if FaultOf(e, id) {
      var f := EntryOf(e, now);
      OneMore(w, Times(faults), now);
      OneMoreTime(faults, f);
      OneMoreTime(log, Entry(now, f.faultType, 5));
    }
    Joined(log, [], []);
  }

  /** Over any run, the storm records added for a VM are the alerts of its
      fault-rate window, at the clock readings of its faults. */
  lemma {:induction false} StormsAreAlerts(h: Hv, run: HvRuns.Run, id: int)
    requires Sized(h) && ValidId(id) && Watching(h)
    ensures StormsMatch(h, HvRuns.After(h, run), id, Times(Faults(run, id)))
  {
    if run != [] {
      hide StormsMatch, Noted, MonStep, Added, Step;
      var init, last := run[..|run| - 1], run[|run| - 1];
      StormsAreAlerts(h, init, id);
      NextNoted(h, init, last.0, last.1, id, EvStorm);
      StormStep(h, HvRuns.After(h, init), HvRuns.After(h, run), last.0, last.1, id, Faults(init, id));
    }
  }

  /** Over any run with a clock that does not go back, three storm alerts for one VM
      span more than a second. */
  lemma StormRate(h: Hv, run: HvRuns.Run, id: int)
    requires Sized(h) && ValidId(id) && Watching(h)
    requires Timely(WindowOf(h.ids.mon[id - 1]), Times(Faults(run, id))) && StormTimes(h.ids.log, id) == []
    ensures var a := StormTimes(HvRuns.After(h, run).ids.log, id);
            forall j :: 0 <= j < |a| - 2 ==> a[j] + 1_000_000 < a[j + 2]
  {
    var w, ts := WindowOf(h.ids.mon[id - 1]), Times(Faults(run, id));
    StormsAreAlerts(h, run, id);
    AlertRate(w, ts);
    assert [] + Alerts(w, ts) == Alerts(w, ts);
  }

  // ---------- enforcement and heartbeats ----------

  /** This event, if it is a storm alert of this VM that found it not blocked. */
  function EnforcedBy(g: Hv, e: Event, now: u64, id: int): seq<Entry>
    requires Sized(g) && ValidId(id)
  {
    if FaultOf(e, id) && Raises(WindowOf(g.ids.mon[id - 1]), now) && FoundFree(g, e, now, id)
    then [Entry(now, EntryOf(e, now).faultType, 5)] else []
  }

  function Enforced(h: Hv, run: HvRuns.Run, id: int): seq<Entry>
    requires Sized(h) && ValidId(id)
  {
    if run == [] then []
    else
      var init, last := run[..|run| - 1], run[|run| - 1];
      Enforced(h, init, id) + EnforcedBy(HvRuns.After(h, init), last.0, last.1, id)
  }

  /** The polls of a run, each with the number of faults the trust engine had counted. */
  function Heartbeats(h: Hv, run: HvRuns.Run): seq<Entry>
    requires Sized(h)
  {
    if run == [] then []
    else
      var init, last := run[..|run| - 1], run[|run| - 1];
      Heartbeats(h, init) + HeartbeatBy(HvRuns.After(h, init), last.0, last.1)
  }

  function HeartbeatBy(g: Hv, e: Event, now: u64): seq<Entry> {
    if e.EPoll? then [Entry(now, 0, g.trust.total)] else []
  }

  lemma AddedBy(g: Hv, k: Hv, e: Event, now: u64, id: int)
    requires Sized(g) && Sized(k)
    requires Noted(g, k, id, EvEnforce, MonStep(g, e, now, id), Added(g, e, now, id, EvEnforce))
    requires Noted(g, k, 0, EvPoll, MonStep(g, e, now, 0), Added(g, e, now, 0, EvPoll))
    ensures ValidId(id) ==>
              Recorded(k.ids.log, id, EvEnforce) == Recorded(g.ids.log, id, EvEnforce) + EnforcedBy(g, e, now, id)
    ensures Recorded(k.ids.log, 0, EvPoll) == Recorded(g.ids.log, 0, EvPoll) + HeartbeatBy(g, e, now)
  {
    hide Recorded, MonStep, Step, Raises, FoundFree, Fires;
  }

  /** Over any run, the enforcement records added for a VM are the storm alerts that found
      it not blocked. */
  lemma {:induction false} EnforcementsOnRecord(h: Hv, run: HvRuns.Run, id: int)
    requires Sized(h) && ValidId(id) && Watching(h)
    ensures Recorded(HvRuns.After(h, run).ids.log, id, EvEnforce)
         == Recorded(h.ids.log, id, EvEnforce) + Enforced(h, run, id)
  {
    if run != [] {
      hide Recorded, MonStep, Step, Noted, Added, EnforcedBy, HeartbeatBy;
      var init, last := run[..|run| - 1], run[|run| - 1];
      var g := HvRuns.After(h, init);
      EnforcementsOnRecord(h, init, id);
      NextNoted(h, init, last.0, last.1, id, EvEnforce);
      NextNoted(h, init, last.0, last.1, 0, EvPoll);
      AddedBy(g, HvRuns.After(h, run), last.0, last.1, id);
      Joined(Recorded(h.ids.log, id, EvEnforce), Enforced(h, init, id), EnforcedBy(g, last.0, last.1, id));
    }
  }

  /** Over any run, the heartbeat records added are the polls. */
  lemma {:induction false} HeartbeatsOnRecord(h: Hv, run: HvRuns.Run)
    requires Sized(h) && Watching(h)
    ensures Recorded(HvRuns.After(h, run).ids.log, 0, EvPoll) == Recorded(h.ids.log, 0, EvPoll) + Heartbeats(h, run)
  {
    if run != [] {
      hide Recorded, MonStep, Step, Noted, Added, EnforcedBy, HeartbeatBy;
      var init, last := run[..|run| - 1], run[|run| - 1];
      var g := HvRuns.After(h, init);
      HeartbeatsOnRecord(h, init);
      NextNoted(h, init, last.0, last.1, 1, EvEnforce);
      NextNoted(h, init, last.0, last.1, 0, EvPoll);
      AddedBy(g, HvRuns.After(h, run), last.0, last.1, 1);
      Joined(Recorded(h.ids.log, 0, EvPoll), Heartbeats(h, init), HeartbeatBy(g, last.0, last.1));
    }
  }

  lemma StagesKeepPoll(h: Hv, id: int, faultType: u32, detail: u64, now: u64)
    requires Sized(h) && ValidId(id)
    ensures RepeatStage(Evidence(h, id, faultType, detail, now), id, faultType, now).ids.lastPoll == h.ids.lastPoll
    ensures RapidStage(h, id, faultType, now).ids.lastPoll == h.ids.lastPoll
  {
  }

  lemma StormKeepsPoll(h: Hv, id: int, faultType: u32, now: u64)
    requires Sized(h) && ValidId(id)
    ensures StormStage(h, id, faultType, now).ids.lastPoll == h.ids.lastPoll
  {
    hide TrustQuarantine;
  }

  lemma NotifyKeepsPoll(h: Hv, id: int, faultType: u32, detail: u64, now: u64)
    requires Sized(h)
    ensures NotifyFault(h, id, faultType, detail, now).ids.lastPoll == h.ids.lastPoll
  {
    hide Evidence, RepeatStage, StormStage, RapidStage;
    if h.ids.up && ValidId(id) {
      var b := RepeatStage(Evidence(h, id, faultType, detail, now), id, faultType, now);
      StagesKeepPoll(h, id, faultType, detail, now);
      StormKeepsPoll(b, id, faultType, now);
      StagesKeepPoll(StormStage(b, id, faultType, now), id, faultType, detail, now);
    }
  }

  /** The time of the last poll is on record. */
  lemma LastPollDated(h: Hv, e: Event, now: u64)
    requires Sized(h) && Watching(h)
    ensures Step(h, e, now).ids.lastPoll == if e.EPoll? then now else h.ids.lastPoll
  {
    hide NotifyFault, ReportFault, PollScan, Promote, TrustQuarantine, TrustRevoke, TrustRestore, FailoverTrigger;
    if (e.EMemFault? || e.EDma?) && ValidId(e.id) {
      var f := EntryOf(e, now);
      NotifyKeepsPoll(ReportFault(HvCells.Charged(h, e), e.id, f.faultType, f.detail, now).hv, e.id, f.faultType, f.detail, now);
    }
  }

  // ---------- the counters add up ----------

  predicate Balanced(h: Hv) {
    h.ids.alerts == (h.ids.anomalies + h.ids.enforcements) % 0x1_0000_0000
  }

  lemma ModAdd(x: int, y: int)
    ensures (x % 0x1_0000_0000 + y) % 0x1_0000_0000 == (x + y) % 0x1_0000_0000
  {
    var r := x % 0x1_0000_0000 + y;
    DivMod(x + y, 0x1_0000_0000, x / 0x1_0000_0000 + r / 0x1_0000_0000, r % 0x1_0000_0000);
  }

  lemma AnomalyBalanced(h: Hv, vm: int, kind: EventKind, faultType: u32, detail: u64, now: u64)
    requires Sized(h) && Balanced(h)
    ensures Balanced(Log(Anomaly(h), vm, kind, Alert, faultType, detail, now))
  {
    ModAdd(h.ids.anomalies + h.ids.enforcements, 1);
    ModAdd(h.ids.anomalies + 1, h.ids.enforcements);
  }

  lemma EnforcementBalanced(h: Hv, vm: int, faultType: u32, detail: u64, now: u64)
    requires Sized(h) && Balanced(h)
    ensures var q := h.(ids := h.ids.(enforcements := Inc32(h.ids.enforcements)));
            Balanced(Log(q, vm, EvEnforce, Alert, faultType, detail, now))
  {
    ModAdd(h.ids.anomalies + h.ids.enforcements, 1);
    ModAdd(h.ids.enforcements + 1, h.ids.anomalies);
  }

  lemma RepeatBalanced(h: Hv, id: int, faultType: u32, detail: u64, now: u64)
    requires Sized(h) && ValidId(id) && Balanced(h)
    ensures Balanced(RepeatStage(Evidence(h, id, faultType, detail, now), id, faultType, now))
  {
    var a := Evidence(h, id, faultType, detail, now);
    var m := a.ids.mon[id - 1];
    AnomalyBalanced(WithMon(a, id, m.(run := Inc32(m.run))), id, EvRepeat, faultType, Inc32(m.run), now);
  }

  lemma StormBalanced(h: Hv, id: int, faultType: u32, now: u64)
    requires Sized(h) && ValidId(id) && Balanced(h)
    ensures Balanced(StormStage(h, id, faultType, now))
  {
    hide TrustQuarantine, Balanced;
    var m := h.ids.mon[id - 1];
    var count := Inc32(m.faults);
    var g := WithMon(h, id, m.(faults := count));
    SameCounters(h, g);
    AnomalyBalanced(g, id, EvStorm, faultType, count, now);
    SameCounters(h, StormStage(h, id, faultType, now));
    var a := Log(Anomaly(g), id, EvStorm, Alert, faultType, count, now);
    var q := TrustQuarantine(a, id, now).hv;
    SameCounters(a, q);
    EnforcementBalanced(q, id, faultType, count, now);
  }

  lemma SameCounters(h: Hv, g: Hv)
    requires Balanced(h)
    ensures (g.ids.alerts == h.ids.alerts && g.ids.anomalies == h.ids.anomalies
             && g.ids.enforcements == h.ids.enforcements) ==> Balanced(g)
  {
  }

  lemma RapidBalanced(h: Hv, id: int, faultType: u32, now: u64)
    requires Sized(h) && ValidId(id) && Balanced(h)
    ensures Balanced(RapidStage(h, id, faultType, now))
  {
    AnomalyBalanced(h, id, EvRapid, faultType, Sub64(now, h.ids.mon[id - 1].first), now);
  }

  lemma NotifyBalanced(h: Hv, id: int, faultType: u32, detail: u64, now: u64)
    requires Sized(h) && Balanced(h)
    ensures Balanced(NotifyFault(h, id, faultType, detail, now))
  {
    hide Evidence, RepeatStage, StormStage, RapidStage, Balanced;
    if ValidId(id) {
      var b := RepeatStage(Evidence(h, id, faultType, detail, now), id, faultType, now);
      RepeatBalanced(h, id, faultType, detail, now);
      StormBalanced(b, id, faultType, now);
      RapidBalanced(StormStage(b, id, faultType, now), id, faultType, now);
    }
  }

  lemma PollOneBalanced(h: Hv, id: int, now: u64)
    requires Sized(h) && ValidId(id) && Balanced(h)
    ensures Balanced(PollOne(h, id, now))
  {
    var detail := 256 * h.ids.mon[id - 1].seen.Rank() + TrustGet(h, id).Rank();
    AnomalyBalanced(h, id, EvTrustDrop, 0, detail, now);
  }

  lemma {:induction false} ScanBalanced(h: Hv, n: nat, now: u64)
    requires Sized(h) && n <= MAX_VMS && Balanced(h)
    ensures Balanced(PollScan(h, n, now))
  {
    hide PollOne, Balanced;
    if n > 0 {
      ScanBalanced(h, n - 1, now);
      PollOneBalanced(PollScan(h, n - 1, now), n, now);
    }
  }

  lemma StepBalanced(h: Hv, e: Event, now: u64)
    requires Sized(h) && Balanced(h)
    ensures Balanced(Step(h, e, now))
  {
    hide NotifyFault, ReportFault, PollScan, Promote, TrustQuarantine, TrustRevoke, TrustRestore, FailoverTrigger;
    match e {
      case EMemFault(id, ipa, w) =>
        var g := h.(stats := h.stats.(mem := Inc32(h.stats.mem), total := Inc32(h.stats.total)));
        var detail := if w && ipa < 0x8000_0000_0000_0000 then ipa + 0x8000_0000_0000_0000 else ipa;
        NotifyBalanced(ReportFault(g, id, FAULT_MEM, detail, now).hv, id, FAULT_MEM, detail, now);
      case EDma(id, pa) =>
        var g := h.(stats := h.stats.(dma := Inc32(h.stats.dma), total := Inc32(h.stats.total)));
        NotifyBalanced(ReportFault(g, id, FAULT_DMA, pa, now).hv, id, FAULT_DMA, pa, now);
      case EPoll => ScanBalanced(h, MAX_VMS, now);
      case _ =>
    }
  }

  /** Every alert is an anomaly or an enforcement, over every run (the counters are
      32-bit words). */
  lemma {:induction false} AlertsBalance(h: Hv, run: HvRuns.Run)
    requires Sized(h) && Balanced(h)
    ensures Balanced(HvRuns.After(h, run))
  {
    hide Step, Balanced;
    if run != [] {
      AlertsBalance(h, run[..|run| - 1]);
      StepBalanced(HvRuns.After(h, run[..|run| - 1]), run[|run| - 1].0, run[|run| - 1].1);
    }
  }

  // ---------- every record ever written ----------

  /** Faults warn, heartbeats inform, all else alerts. A trust drop carries the level it
      fell to, and a rapid escalation a level that blocks. */
  predicate WellRecorded(r: Record) {
    && (if r.kind == EvPoll then r.vm == 0 else ValidId(r.vm))
    && r.sev == (if r.kind == EvFault then Warn else if r.kind == EvPoll then Info else Alert)
    && (r.kind == EvTrustDrop ==> r.detail % 256 == r.trustAt.Rank())
    && (r.kind == EvRapid ==> Blocked(r.trustAt))
    && (r.kind == EvPoll ==> r.trustAt == Unknown)
  }

  datatype Class = Anomalies | Alarms | Enforcements

  predicate InClass(r: Record, c: Class) {
    match c
    case Anomalies => r.kind == EvStorm || r.kind == EvRapid || r.kind == EvRepeat || r.kind == EvTrustDrop
    case Alarms => r.sev == Alert
    case Enforcements => r.kind == EvEnforce
  }

  function Number(log: seq<Record>, c: Class): nat {
    if log == [] then 0 else Number(log[..|log| - 1], c) + if InClass(log[|log| - 1], c) then 1 else 0
  }

  /** All records are well made, and the counters number those there are, in 32-bit words. */
  predicate Booked(ids: Ids) {
    && (forall i :: 0 <= i < |ids.log| ==> WellRecorded(ids.log[i]))
    && ids.anomalies == Number(ids.log, Anomalies) % 0x1_0000_0000
    && ids.alerts == Number(ids.log, Alarms) % 0x1_0000_0000
    && ids.enforcements == Number(ids.log, Enforcements) % 0x1_0000_0000
  }

  function Bumped(n: u32, yes: bool): u32 {
    if yes then Inc32(n) else n
  }

  lemma OneBooked(i: Ids, j: Ids, r: Record)
    requires Booked(i) && WellRecorded(r) && j.log == i.log + [r]
    requires j.anomalies == Bumped(i.anomalies, InClass(r, Anomalies))
    requires j.alerts == Bumped(i.alerts, InClass(r, Alarms))
    requires j.enforcements == Bumped(i.enforcements, InClass(r, Enforcements))
    ensures Booked(j)
  {
    assert j.log[..|i.log|] == i.log;
    IncSum(0, Number(i.log, Anomalies));
    IncSum(0, Number(i.log, Alarms));
    IncSum(0, Number(i.log, Enforcements));
    hide Inc32;
  }

  lemma AnomalyBooked(h: Hv, vm: int, kind: EventKind, faultType: u32, detail: u64, now: u64)
    requires Sized(h) && Booked(h.ids) && ValidId(vm) && (kind == EvStorm || kind == EvRepeat || kind == EvRapid || kind == EvTrustDrop)
    requires kind == EvTrustDrop ==> detail % 256 == TrustGet(h, vm).Rank()
    requires kind == EvRapid ==> Blocked(TrustGet(h, vm))
    ensures Booked(Log(Anomaly(h), vm, kind, Alert, faultType, detail, now).ids)
  {
    hide Inc32, Booked;
    var r := Record(now, vm, kind, Alert, faultType, detail, TrustGet(h, vm));
    OneBooked(h.ids, Log(Anomaly(h), vm, kind, Alert, faultType, detail, now).ids, r);
  }

  lemma SameBooks(i: Ids, j: Ids)
    requires Booked(i) && j.log == i.log && j.anomalies == i.anomalies && j.alerts == i.alerts && j.enforcements == i.enforcements
    ensures Booked(j)
  {
  }

  lemma EarlyBooked(h: Hv, id: int, faultType: u32, detail: u64, now: u64)
    requires Sized(h) && ValidId(id) && Booked(h.ids)
    ensures Booked(RepeatStage(Evidence(h, id, faultType, detail, now), id, faultType, now).ids)
  {
    hide Inc32, Booked;
    var g, a := Log(h, id, EvFault, Warn, faultType, detail, now), Evidence(h, id, faultType, detail, now);
    OneBooked(h.ids, g.ids, Record(now, id, EvFault, Warn, faultType, detail, TrustGet(h, id)));
    SameBooks(g.ids, a.ids);
    var m := a.ids.mon[id - 1];
    var k := WithMon(a, id, m.(run := Inc32(m.run)));
    SameBooks(a.ids, k.ids);
    AnomalyBooked(k, id, EvRepeat, faultType, Inc32(m.run), now);
    SameBooks(a.ids, WithMon(a, id, m.(run := 1, lastType := faultType)).ids);
  }

  lemma StormBooked(h: Hv, id: int, faultType: u32, now: u64)
    requires Sized(h) && ValidId(id) && Booked(h.ids)
    ensures Booked(StormStage(h, id, faultType, now).ids)
  {
    hide Inc32, Booked, TrustQuarantine;
    var m := h.ids.mon[id - 1];
    var count := Inc32(m.faults);
    var g := WithMon(h, id, m.(faults := count));
    SameBooks(h.ids, g.ids);
    SameBooks(h.ids, WithMon(h, id, m.(start := now, faults := 1)).ids);
    AnomalyBooked(g, id, EvStorm, faultType, count, now);
    EnforceBooked(Log(Anomaly(g), id, EvStorm, Alert, faultType, count, now), id, faultType, count, now);
  }

  lemma EnforceBooked(h: Hv, id: int, faultType: u32, count: u32, now: u64)
    requires Sized(h) && ValidId(id) && Booked(h.ids)
    ensures Booked(Enforce(h, id, faultType, count, now).ids)
  {
    hide Inc32, Booked, TrustQuarantine;
    var q := TrustQuarantine(h, id, now).hv;
    if !Blocked(TrustGet(h, id)) {
      OneBooked(h.ids, Enforce(h, id, faultType, count, now).ids,
                Record(now, id, EvEnforce, Alert, faultType, count, TrustGet(q, id)));
    }
  }

  lemma NotifyBooked(h: Hv, id: int, faultType: u32, detail: u64, now: u64)
    requires Sized(h) && Booked(h.ids)
    ensures Booked(NotifyFault(h, id, faultType, detail, now).ids)
  {
    hide Evidence, RepeatStage, StormStage, Booked, Inc32;
    if ValidId(id) {
      var b := RepeatStage(Evidence(h, id, faultType, detail, now), id, faultType, now);
      EarlyBooked(h, id, faultType, detail, now);
      StormBooked(b, id, faultType, now);
      var c := StormStage(b, id, faultType, now);
      var m := c.ids.mon[id - 1];
      if Blocked(TrustGet(c, id)) {
        AnomalyBooked(c, id, EvRapid, faultType, Sub64(now, m.first), now);
        var l := Log(Anomaly(c), id, EvRapid, Alert, faultType, Sub64(now, m.first), now);
        SameBooks(l.ids, WithMon(l, id, m.(first := 0)).ids);
      }
    }
  }

  lemma PollOneBooked(h: Hv, id: int, now: u64)
    requires Sized(h) && ValidId(id) && Booked(h.ids)
    ensures Booked(PollOne(h, id, now).ids)
  {
    hide Inc32, Booked;
    var cur, prev := TrustGet(h, id), h.ids.mon[id - 1].seen;
    DivMod(256 * prev.Rank() + cur.Rank(), 256, prev.Rank(), cur.Rank());
    AnomalyBooked(h, id, EvTrustDrop, 0, 256 * prev.Rank() + cur.Rank(), now);
    var g := if Dropped(h, id) then Log(Anomaly(h), id, EvTrustDrop, Alert, 0, 256 * prev.Rank() + cur.Rank(), now) else h;
    SameBooks(g.ids, PollOne(h, id, now).ids);
  }

  lemma {:induction false} ScanBooked(h: Hv, n: nat, now: u64)
    requires Sized(h) && n <= MAX_VMS && Booked(h.ids)
    ensures Booked(PollScan(h, n, now).ids)
  {
    hide PollOne, Booked;
    if n > 0 {
      ScanBooked(h, n - 1, now);
      PollOneBooked(PollScan(h, n - 1, now), n, now);
    }
  }

  lemma PollBooked(h: Hv, now: u64)
    requires Sized(h) && Booked(h.ids)
    ensures Booked(Poll(h, now).ids)
  {
    hide PollScan, Promote, Booked, Inc32;
    if h.ids.up {
      ScanBooked(h, MAX_VMS, now);
      var p := Promote(PollScan(h, MAX_VMS, now), MAX_VMS, now);
      var l := Log(p, 0, EvPoll, Info, 0, p.trust.total, now);
      OneBooked(p.ids, l.ids, Record(now, 0, EvPoll, Info, 0, p.trust.total, Unknown));
      SameBooks(l.ids, Poll(h, now).ids);
    }
  }

  lemma StepBooked(h: Hv, e: Event, now: u64)
    requires Sized(h) && Booked(h.ids)
    ensures Booked(Step(h, e, now).ids)
  {
    hide NotifyFault, ReportFault, Poll, TrustQuarantine, TrustRevoke, TrustRestore, FailoverTrigger, Booked;
    if e.EMemFault? || e.EDma? {
      if h.stats.up && ValidId(e.id) {
        var f := EntryOf(e, now);
        NotifyBooked(ReportFault(HvCells.Charged(h, e), e.id, f.faultType, f.detail, now).hv, e.id, f.faultType, f.detail, now);
      }
    } else if e.EPoll? {
      PollBooked(h, now);
    }
  }

  /** Over every run: every record ever written is well made, and the counters of
      anomalies, alerts and enforcements number the records of each class. */
  lemma {:induction false} RecordsBooked(h: Hv, run: HvRuns.Run)
    requires Sized(h) && Booked(h.ids)
    ensures Booked(HvRuns.After(h, run).ids)
  {
    hide Step, Booked;
    if run != [] {
      RecordsBooked(h, run[..|run| - 1]);
      StepBooked(HvRuns.After(h, run[..|run| - 1]), run[|run| - 1].0, run[|run| - 1].1);
    }
  }

  // ---------- fault counters ----------

  /** Memory faults, DMA violations and unrouted interrupts, whoever is charged. */
  function SourceOf(e: Event): nat {
    match e
    case EMemFault(_, _, _) => 1
    case EDma(_, _) => 2
    case EIrq => 3
    case _ => 0
  }

  function One(e: Event, source: nat): nat {
    if SourceOf(e) == source then 1 else 0
  }

  function Count(run: HvRuns.Run, source: nat): nat {
    if run == [] then 0
    else Count(run[..|run| - 1], source) + One(run[|run| - 1].0, source)
  }

  lemma StepStats(h: Hv, e: Event, now: u64)
    requires Sized(h) && h.stats.up
    ensures var s, k := h.stats, SourceOf(e);
            Step(h, e, now).stats == Stats(true, if k == 1 then Inc32(s.mem) else s.mem,
                                           if k == 2 then Inc32(s.dma) else s.dma,
                                           if k == 3 then Inc32(s.irq) else s.irq,
                                           if k != 0 then Inc32(s.total) else s.total)
  {
    hide Feed, Poll, TrustQuarantine, TrustRevoke, TrustRestore, FailoverTrigger;
  }

  /** Counters that have counted a, b and c faults since they read `s`. */
  predicate Tallied(s: Stats, t: Stats, a: nat, b: nat, c: nat) {
    && t.up
    && t.mem == (s.mem + a) % 0x1_0000_0000
    && t.dma == (s.dma + b) % 0x1_0000_0000
    && t.irq == (s.irq + c) % 0x1_0000_0000
    && t.total == (s.total + (a + b + c)) % 0x1_0000_0000
  }

  lemma OneMoreCounted(s: Stats, t: Stats, a: nat, b: nat, c: nat)
    requires Tallied(s, t, a, b, c)
    ensures Tallied(s, t.(mem := Inc32(t.mem), total := Inc32(t.total)), a + 1, b, c)
    ensures Tallied(s, t.(dma := Inc32(t.dma), total := Inc32(t.total)), a, b + 1, c)
    ensures Tallied(s, t.(irq := Inc32(t.irq), total := Inc32(t.total)), a, b, c + 1)
  {
    hide Inc32;
    IncSum(s.mem, a);
    IncSum(s.dma, b);
    IncSum(s.irq, c);
    IncSum(s.total, a + b + c);
  }

  lemma StepTallied(s: Stats, g: Hv, e: Event, now: u64, a: nat, b: nat, c: nat)
    requires Sized(g) && Tallied(s, g.stats, a, b, c)
    ensures Tallied(s, Step(g, e, now).stats, a + One(e, 1), b + One(e, 2), c + One(e, 3))
  {
    assert g.stats.up;
    hide Step, Tallied, Inc32;
    StepStats(g, e, now);
    OneMoreCounted(s, g.stats, a, b, c);
  }

  /** Over any run, each counter counts its own faults and the total counts them all, in
      32-bit words. */
  lemma {:induction false} StatsCount(h: Hv, run: HvRuns.Run)
    requires Sized(h) && h.stats.up
    ensures Tallied(h.stats, HvRuns.After(h, run).stats, Count(run, 1), Count(run, 2), Count(run, 3))
  {
    if run != [] {
      hide Step, Tallied, One;
      var init, last := run[..|run| - 1], run[|run| - 1];
      StatsCount(h, init);
      StepTallied(h.stats, HvRuns.After(h, init), last.0, last.1, Count(init, 1), Count(init, 2), Count(init, 3));
    }
  }
}
