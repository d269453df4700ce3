/** The scheduler: timer interrupts and WFI traps over the slots of all VMs. */
module Sched {
  import opened Words
  import opened VmSpec
  import opened HvSpec
  import opened HvInv
  import opened HvFrames
  import opened HvBase
  import opened HvRuns
  import opened HvVcpus
  import HvBoot
  import TableBudget
  import opened SchedSpec
  import opened Stage2
  import opened AuditLog
  import opened Hypervisor

  const MAX_SLOTS: nat := 16
  const MAJOR_FRAME: u32 := 10_000

  /** `current` is the vCPU that runs, `running` its VM, 0 before the first dispatch.
      `changes` counts switches from one VM to another. */
  datatype Sched = Sched(slots: seq<Slot>, cur: nat, current: Option<nat>, running: int, changes: u32)

  datatype Sys = Sys(sc: Sched, hv: Hv)

  /** What a scheduling point leaves, and the time slice it programs. */
  datatype Result = Result(sys: Sys, timer: u32)

  predicate Seated(sc: Sched, h: Hv) {
    && |sc.slots| <= MAX_SLOTS && (sc.slots != [] ==> sc.cur < |sc.slots|)
    && (sc.current.Some? ==>
          sc.slots != [] && sc.current.value < |h.vcpus| && sc.running == sc.slots[sc.cur].vm)
  }

  /** A slot can run when its VM is running and its vCPU is there and not stopped. */
  predicate SlotReady(h: Hv, s: Slot)
    requires Sized(h)
  {
    && Exists(h, s.vm) && h.vms[s.vm - 1].state == Running && s.vcpu < |h.vms[s.vm - 1].vcpus|
    && h.vcpus[h.vms[s.vm - 1].vcpus[s.vcpu]].state != VStopped
  }

  function VcpuAt(h: Hv, s: Slot): Option<nat>
    requires Sized(h)
  {
    if SlotReady(h, s) then Some(h.vms[s.vm - 1].vcpus[s.vcpu]) else None
  }

  function Runnable(slots: seq<Slot>, h: Hv): (ready: seq<bool>)
    requires Sized(h)
    ensures |ready| == |slots| && forall i :: 0 <= i < |slots| ==> (ready[i] <==> SlotReady(h, slots[i]))
  {
    seq(|slots|, i requires 0 <= i < |slots| => SlotReady(h, slots[i]))
  }

  function SwitchVcpus(vcpus: seq<Vcpu>, prev: Option<nat>, next: nat): (r: seq<Vcpu>)
    requires next < |vcpus| && (prev.Some? ==> prev.value < |vcpus|)
    ensures |r| == |vcpus|
  {
    var saved := if prev.Some? then vcpus[prev.value := vcpus[prev.value].(state := VReady)] else vcpus;
    saved[next := saved[next].(state := VRunning)]
  }

  /** Every eighth change of VM the monitor polls. */
  function Polled(sc: Sched, h: Hv, vm: int, now: u64): (r: Sys)
    requires Sized(h)
    ensures Sized(r.hv)
  {
    if sc.running == vm then Sys(sc, h)
    else
      var n := Inc32(sc.changes);
      Sys(sc.(changes := n), if n % 8 == 0 then HvSpec.Poll(h, now) else h)
  }

  function Dispatch(sc: Sched, h: Hv, j: nat, now: u64): (r: Sys)
    requires Sized(h) && Seated(sc, h) && j < |sc.slots| && SlotReady(h, sc.slots[j])
    ensures Sized(r.hv) && Seated(r.sc, r.hv)
  {
    var slot := sc.slots[j];
    var next := h.vms[slot.vm - 1].vcpus[slot.vcpu];
    var p := Polled(sc, h, slot.vm, now);
    PollQuiet(h, now);
    Seat(p, j, next)
  }

  /** The next vCPU takes over from the one that runs, if it is another. */
  function Seat(p: Sys, j: nat, next: nat): Sys
    requires j < |p.sc.slots| && next < |p.hv.vcpus| && (p.sc.current.Some? ==> p.sc.current.value < |p.hv.vcpus|)
  {
    var vcpus := if p.sc.current == Some(next) then p.hv.vcpus else SwitchVcpus(p.hv.vcpus, p.sc.current, next);
    Sys(p.sc.(cur := j, current := Some(next), running := p.sc.slots[j].vm), p.hv.(vcpus := vcpus))
  }

  function Schedule(sc: Sched, h: Hv, wfi: bool, now: u64): (r: Result)
    requires Sized(h) && Seated(sc, h) && sc.slots != []
    ensures Sized(r.sys.hv) && Seated(r.sys.sc, r.sys.hv)
  {
    match Choose(sc.slots, sc.cur, sc.running, Turn(wfi, Runnable(sc.slots, h)))
    case None => Result(Sys(sc, h), MAJOR_FRAME)
    case Some(j) => Result(Dispatch(sc, h, j, now), sc.slots[j].dur)
  }

  function Tick(sc: Sched, h: Hv, now: u64): (r: Result)
    requires Sized(h) && Seated(sc, h)
    ensures Sized(r.sys.hv) && Seated(r.sys.sc, r.sys.hv)
  {
    if sc.slots == [] then Result(Sys(sc, h), MAJOR_FRAME) else Schedule(sc, h, false, now)
  }

  /** The vCPU that executed WFI resumes behind it. */
  function PastWfi(sc: Sched, h: Hv): (r: Hv)
    requires Sized(h) && Seated(sc, h)
    ensures Sized(r) && |r.vcpus| == |h.vcpus|
  {
    match sc.current
    case None => h
    case Some(c) => h.(vcpus := h.vcpus[c := h.vcpus[c].(elr := Add64(h.vcpus[c].elr, 4))])
  }

  function Yield(sc: Sched, h: Hv, now: u64): (r: Result)
    requires Sized(h) && Seated(sc, h) && sc.slots != []
    ensures Sized(r.sys.hv) && Seated(r.sys.sc, r.sys.hv)
  {
    Schedule(sc, PastWfi(sc, h), true, now)
  }

  lemma {:induction false} PromoteQuiet(h: Hv, n: nat, now: u64)
    requires Sized(h) && n <= MAX_VMS
    ensures HvSpec.Promote(h, n, now) == h.(trust := HvSpec.Promote(h, n, now).trust)
  {
    if n > 0 && h.trust.up { PromoteQuiet(h, n - 1, now); }
  }

  /** Polling touches the trust records and the monitor only. */
  lemma PollQuiet(h: Hv, now: u64)
    requires Sized(h)
    ensures var g := HvSpec.Poll(h, now); g == h.(trust := g.trust, ids := g.ids)
  {
    if h.ids.up {
      hide HvSpec.Promote, HvSpec.PollScan;
      PromoteQuiet(HvSpec.PollScan(h, MAX_VMS, now), MAX_VMS, now);
    }
  }

  // ---------- scheduling and everything else, in any order ----------

  datatype Act = AEvent(e: Event, now: u64) | ATimer(now: u64) | AWfi(now: u64)

  predicate SysOk(s: Sys) {
    Sized(s.hv) && Seated(s.sc, s.hv) && s.sc.slots != []
  }

  function Move(s: Sys, a: Act): (r: Sys)
    requires SysOk(s)
    ensures SysOk(r)
  {
    match a
    case AEvent(e, now) => StepSteady(s.hv, e, now); Sys(s.sc, Step(s.hv, e, now))
    case ATimer(now) => Tick(s.sc, s.hv, now).sys
    case AWfi(now) => Yield(s.sc, s.hv, now).sys
  }

  function Moves(s: Sys, acts: seq<Act>): (r: Sys)
    requires SysOk(s)
    ensures SysOk(r)
  {
    if acts == [] then s else Move(Moves(s, acts[..|acts| - 1]), acts[|acts| - 1])
  }

  /** A scheduling point can only poll. */
  function EventOf(a: Act): Event {
    if a.AEvent? then a.e else EPoll
  }

  predicate CalmActs(s: Sys, acts: seq<Act>)
    requires SysOk(s)
  {
    acts == []
    || (var init := acts[..|acts| - 1];
        CalmActs(s, init) && !ResumesBlocked(Moves(s, init).hv, EventOf(acts[|acts| - 1])))
  }

  predicate EarlyActs(s: Sys, acts: seq<Act>)
    requires SysOk(s)
  {
    acts == []
    || (var init := acts[..|acts| - 1];
        EarlyActs(s, init) && Early(Moves(s, init).hv, EventOf(acts[|acts| - 1])))
  }

  predicate AdmissibleActs(s: Sys, acts: seq<Act>)
    requires SysOk(s)
  {
    acts == []
    || (var init := acts[..|acts| - 1];
        AdmissibleActs(s, init) && Admissible(Moves(s, init).hv, EventOf(acts[|acts| - 1])))
  }

  /** The slot a scheduling point would dispatch. */
  function Next(s: Sys, wfi: bool): Option<nat>
    requires SysOk(s)
  {
    Choose(s.sc.slots, s.sc.cur, s.sc.running, Turn(wfi, Runnable(s.sc.slots, s.hv)))
  }

  /** The scheduling points of a run, each with the slots that could run then. */
  function TurnsOf(s: Sys, acts: seq<Act>): seq<Turn>
    requires SysOk(s)
  {
    if acts == [] then []
    else
      var before, a := acts[..|acts| - 1], acts[|acts| - 1];
      if a.AEvent? then TurnsOf(s, before)
      else TurnsOf(s, before) + [Turn(a.AWfi?, Runnable(s.sc.slots, Moves(s, before).hv))]
  }

  lemma PastWfiSame(sc: Sched, h: Hv)
    requires Sized(h) && Seated(sc, h)
    ensures Runnable(sc.slots, PastWfi(sc, h)) == Runnable(sc.slots, h)
  {
  }

  lemma MoveIsTurn(s: Sys, a: Act)
    requires SysOk(s) && s.sc.current.Some?
    ensures var t := Move(s, a);
            && t.sc.slots == s.sc.slots && t.sc.current.Some?
            && t.sc.cur == if a.AEvent? then s.sc.cur
                           else SchedSpec.Moved(s.sc.slots, s.sc.cur, Turn(a.AWfi?, Runnable(s.sc.slots, s.hv)))
  {
    hide Step, SlotReady, Choose, HvSpec.Poll;
    if a.AWfi? { PastWfiSame(s.sc, s.hv); }
  }

  lemma TurnsMove(s: Sys, acts: seq<Act>)
    requires SysOk(s) && acts != []
    ensures var init, a := acts[..|acts| - 1], acts[|acts| - 1];
            TurnsOf(s, acts) == if a.AEvent? then TurnsOf(s, init)
                                else TurnsOf(s, init) + [Turn(a.AWfi?, Runnable(s.sc.slots, Moves(s, init).hv))]
  {
    hide Moves, Runnable;
  }

  lemma FollowMore(slots: seq<Slot>, cur: nat, turns: seq<Turn>, t: Turn)
    requires cur < |slots| == |t.ready| && Turns(slots, turns)
    ensures Turns(slots, turns + [t])
    ensures Follow(slots, cur, turns + [t]) == SchedSpec.Moved(slots, Follow(slots, cur, turns), t)
  {
    assert (turns + [t])[..|turns|] == turns;
  }

  /** From the first dispatch on, a run of the whole machine moves through the slots as
      its scheduling points say: what holds of every sequence of turns holds of it. */
  lemma {:induction false} RunsAreTurns(s: Sys, acts: seq<Act>)
    requires SysOk(s) && s.sc.current.Some?
    ensures Turns(s.sc.slots, TurnsOf(s, acts))
    ensures var t := Moves(s, acts);
            && t.sc.slots == s.sc.slots && t.sc.current.Some?
            && t.sc.cur == Follow(s.sc.slots, s.sc.cur, TurnsOf(s, acts))
  {
    if acts != [] {
      hide Move, SchedSpec.Moved, SlotReady, Follow, TurnsOf;
      var init, a := acts[..|acts| - 1], acts[|acts| - 1];
      RunsAreTurns(s, init);
      MoveIsTurn(Moves(s, init), a);
      TurnsMove(s, acts);
      FollowMore(s.sc.slots, s.sc.cur, TurnsOf(s, init), Turn(a.AWfi?, Runnable(s.sc.slots, Moves(s, init).hv)));
    }
  }

  /** Where in the run its k-th scheduling point is over. */
  lemma {:induction false} TurnAt(s: Sys, acts: seq<Act>, k: nat) returns (n: nat)
    requires SysOk(s) && k <= |TurnsOf(s, acts)|
    ensures n <= |acts| && TurnsOf(s, acts[..n]) == TurnsOf(s, acts)[..k]
  {
    n := |acts|;
    assert acts[..n] == acts;
    if k < |TurnsOf(s, acts)| {
      hide Moves, Runnable;
      var init := acts[..|acts| - 1];
      n := TurnAt(s, init, k);
      assert init[..n] == acts[..n];
    }
  }

  /** In any run of the whole machine, a VM that is not running and whose slot j can run
      at every scheduling point runs at some moment of it, if the run has one scheduling
      point less than there are slots. */
  lemma WaitingInRuns(s: Sys, acts: seq<Act>, j: nat)
    requires SysOk(s) && s.sc.current.Some? && j < |s.sc.slots| && s.sc.running != s.sc.slots[j].vm
    requires |TurnsOf(s, acts)| == |s.sc.slots| - 1 && Always(TurnsOf(s, acts), j)
    ensures exists n :: 0 <= n <= |acts| && Moves(s, acts[..n]).sc.running == s.sc.slots[j].vm
  {
    hide TurnsOf, Served, Moves;
    var turns := TurnsOf(s, acts);
    RunsAreTurns(s, acts);
    BoundedWaiting(s.sc.slots, s.sc.cur, turns, j);
    var k := ServedAt(s.sc.slots, s.sc.cur, turns, s.sc.slots[j].vm);
    var n := TurnAt(s, acts, k);
    RunsAreTurns(s, acts[..n]);
    assert Moves(s, acts[..n]).sc.running == s.sc.slots[j].vm;
  }

  // ---------- the processor is handed over ----------

  /** What a timer interrupt or a WFI finds: the WFI only moved the program counter. */
  function At(s: Sys, a: Act): (h: Hv)
    requires SysOk(s) && !a.AEvent?
    ensures Sized(h) && Seated(s.sc, h)
  {
    if a.AWfi? then PastWfi(s.sc, s.hv) else s.hv
  }

  lemma MoveParts(s: Sys, a: Act)
    requires SysOk(s) && !a.AEvent?
    ensures var n := Next(s, a.AWfi?);
            && (n.Some? ==> SlotReady(At(s, a), s.sc.slots[n.value]))
            && Move(s, a) == if n.None? then Sys(s.sc, At(s, a)) else Dispatch(s.sc, At(s, a), n.value, a.now)
  {
    hide Dispatch, Choose;
    if a.AWfi? { PastWfiSame(s.sc, s.hv); }
  }

  lemma PastWfiElr(sc: Sched, h: Hv, c: nat)
    requires Sized(h) && Seated(sc, h) && c < |h.vcpus|
    ensures var v, w := h.vcpus[c], PastWfi(sc, h).vcpus[c];
            w == if sc.current == Some(c) then v.(elr := (v.elr + 4) % 0x1_0000_0000_0000_0000) else v
  {
  }

  /** Every vCPU but the two concerned is as before; so is each, but for its state. */
  lemma DispatchVcpus(sc: Sched, h: Hv, j: nat, now: u64, c: nat)
    requires Sized(h) && Seated(sc, h) && j < |sc.slots| && SlotReady(h, sc.slots[j]) && c < |h.vcpus|
    ensures var t, n := Dispatch(sc, h, j, now), VcpuAt(h, sc.slots[j]).value;
            && |t.hv.vcpus| == |h.vcpus| && t.sc.current == Some(n) && n < |h.vcpus|
            && t.hv.vcpus[c] == if sc.current == Some(n) then h.vcpus[c]
                                else if c == n then h.vcpus[c].(state := VRunning)
                                else if sc.current == Some(c) then h.vcpus[c].(state := VReady)
                                else h.vcpus[c]
  {
    hide HvSpec.Poll;
    PollQuiet(h, now);
  }

  lemma EventElr(s: Sys, a: Act, c: nat)
    requires SysOk(s) && c < |s.hv.vcpus| && a.AEvent?
    ensures var t, v := Move(s, a).hv, s.hv.vcpus[c]; c < |t.vcpus| && t.vcpus[c] == v.(state := t.vcpus[c].state)
  {
    hide Step;
    StepSteady(s.hv, a.e, a.now);
  }

  lemma ScheduleElr(s: Sys, a: Act, c: nat)
    requires SysOk(s) && c < |s.hv.vcpus| && !a.AEvent?
    ensures var t, v := Move(s, a).hv, At(s, a).vcpus[c]; c < |t.vcpus| && t.vcpus[c] == v.(state := t.vcpus[c].state)
  {
    hide Dispatch, Choose, PastWfi, SlotReady, Move;
    MoveParts(s, a);
    if Next(s, a.AWfi?).Some? { DispatchVcpus(s.sc, At(s, a), Next(s, a.AWfi?).value, a.now, c); }
  }

  /** A WFI moves the program counter of the vCPU that executed it behind it. Nothing else
      in a run ever changes where a vCPU goes on or its argument. */
  lemma MoveElr(s: Sys, a: Act, c: nat)
    requires SysOk(s) && c < |s.hv.vcpus|
    ensures var t, v := Move(s, a).hv, s.hv.vcpus[c];
            && c < |t.vcpus|
            && var w := t.vcpus[c];
            && w.vm == v.vm && w.id == v.id && w.x0 == v.x0
            && w.elr == if a.AWfi? && s.sc.current == Some(c) then (v.elr + 4) % 0x1_0000_0000_0000_0000 else v.elr
  {
    hide Move, PastWfi;
    if a.AEvent? {
      EventElr(s, a, c);
    } else {
      ScheduleElr(s, a, c);
      PastWfiElr(s.sc, s.hv, c);
    }
  }

  /** How often vCPU c gives up the processor. */
  function WfisOf(s: Sys, acts: seq<Act>, c: nat): nat
    requires SysOk(s)
  {
    if acts == [] then 0
    else
      var init := acts[..|acts| - 1];
      WfisOf(s, init, c) + if acts[|acts| - 1].AWfi? && Moves(s, init).sc.current == Some(c) then 1 else 0
  }

  /** vCPU c is still `v`, with n WFIs behind it. */
  predicate WentOn(v: Vcpu, h: Hv, c: nat, n: nat) {
    && c < |h.vcpus|
    && var w := h.vcpus[c];
    && w.vm == v.vm && w.id == v.id && w.x0 == v.x0
    && w.elr == (v.elr + 4 * n) % 0x1_0000_0000_0000_0000
  }

  lemma WentOnStep(v: Vcpu, s: Sys, a: Act, c: nat, n: nat)
    requires SysOk(s) && WentOn(v, s.hv, c, n)
    ensures WentOn(v, Move(s, a).hv, c, n + if a.AWfi? && s.sc.current == Some(c) then 1 else 0)
  {
    hide Move;
    MoveElr(s, a, c);
    FourMore(v.elr + 4 * n);
  }

  /** Over every run a vCPU goes on where it started plus four bytes for each of its WFIs. */
  lemma {:induction false} ElrOverRuns(s: Sys, acts: seq<Act>, c: nat)
    requires SysOk(s) && c < |s.hv.vcpus|
    ensures WentOn(s.hv.vcpus[c], Moves(s, acts).hv, c, WfisOf(s, acts, c))
  {
    var v := s.hv.vcpus[c];
    if acts == [] {
      DivMod(v.elr, 0x1_0000_0000_0000_0000, 0, v.elr);
    } else {
      hide Move, WentOn;
      ElrOverRuns(s, acts[..|acts| - 1], c);
      WentOnStep(v, Moves(s, acts[..|acts| - 1]), acts[|acts| - 1], c, WfisOf(s, acts[..|acts| - 1], c));
    }
  }

  lemma FourMore(x: int)
    ensures (x % 0x1_0000_0000_0000_0000 + 4) % 0x1_0000_0000_0000_0000 == (x + 4) % 0x1_0000_0000_0000_0000
  {
    var b, r := 0x1_0000_0000_0000_0000, x % 0x1_0000_0000_0000_0000 + 4;
    DivMod(x + 4, b, x / b + r / b, r % b);
  }

  /** Only the current vCPU runs. */
  predicate OneRuns(s: Sys) {
    forall c :: 0 <= c < |s.hv.vcpus| && s.hv.vcpus[c].state == VRunning ==> s.sc.current == Some(c)
  }

  /** When a slot can run, its vCPU takes over: it runs, and the one before is ready again. */
  lemma HandedOver(s: Sys, a: Act)
    requires SysOk(s) && !a.AEvent? && Next(s, a.AWfi?).Some?
    ensures var t, n := Move(s, a), VcpuAt(s.hv, s.sc.slots[Next(s, a.AWfi?).value]);
            && n.Some? && n.value < |s.hv.vcpus| == |t.hv.vcpus| && t.sc.current == n
            && (s.sc.current != n ==>
                  && t.hv.vcpus[n.value].state == VRunning
                  && (s.sc.current.Some? ==> t.hv.vcpus[s.sc.current.value].state == VReady))
  {
    hide Dispatch, Choose, Move;
    MoveParts(s, a);
    var j, h := Next(s, a.AWfi?).value, At(s, a);
    if a.AWfi? { PastWfiSame(s.sc, s.hv); }
    assert VcpuAt(h, s.sc.slots[j]) == VcpuAt(s.hv, s.sc.slots[j]);
    DispatchVcpus(s.sc, h, j, a.now, VcpuAt(h, s.sc.slots[j]).value);
    if s.sc.current.Some? { DispatchVcpus(s.sc, h, j, a.now, s.sc.current.value); }
  }

  lemma MoveOneRuns(s: Sys, a: Act)
    requires SysOk(s) && OneRuns(s)
    ensures OneRuns(Move(s, a))
  {
    if a.AEvent? {
      hide Step;
      StepSteady(s.hv, a.e, a.now);
    } else {
      hide Dispatch, Choose, SlotReady, Move, PastWfi;
      MoveParts(s, a);
      forall c | 0 <= c < |s.hv.vcpus| ensures At(s, a).vcpus[c].state == s.hv.vcpus[c].state { PastWfiElr(s.sc, s.hv, c); }
      if Next(s, a.AWfi?).Some? {
        var j := Next(s, a.AWfi?).value;
        DispatchVcpus(s.sc, At(s, a), j, a.now, 0);
        forall c | 0 <= c < |s.hv.vcpus| && Move(s, a).hv.vcpus[c].state == VRunning
          ensures Move(s, a).sc.current == Some(c)
        {
          DispatchVcpus(s.sc, At(s, a), j, a.now, c);
        }
      }
    }
  }

  /** Over every run no other vCPU than the current one is ever running. */
  lemma {:induction false} OneRunsAlways(s: Sys, acts: seq<Act>)
    requires SysOk(s) && OneRuns(s)
    ensures OneRuns(Moves(s, acts))
  {
    hide Move, OneRuns;
    if acts != [] {
      OneRunsAlways(s, acts[..|acts| - 1]);
      MoveOneRuns(Moves(s, acts[..|acts| - 1]), acts[|acts| - 1]);
    }
  }

  /** The timer is set to the slice of the slot that is current now, or to the major frame
      of ten milliseconds if no slot can run. */
  lemma TimerSlice(sc: Sched, h: Hv, wfi: bool, now: u64)
    requires Sized(h) && Seated(sc, h) && sc.slots != []
    ensures var r := Schedule(sc, h, wfi, now);
            && r.sys.sc.slots == sc.slots
            && r.timer == if NothingReady(sc.slots, h) then 10_000 else r.sys.sc.slots[r.sys.sc.cur].dur
  {
    hide SlotReady, Choose, HvSpec.Poll, NothingReady;
    NoneReady(Sys(sc, h), wfi);
  }

  /** A scheduling point that puts another VM on the processor counts, and every eighth
      polls the monitor; no other does either. */
  lemma EveryEighthPolls(s: Sys, a: Act)
    requires SysOk(s) && !a.AEvent?
    ensures var t := Move(s, a);
            var n := (s.sc.changes + 1) % 0x1_0000_0000;
            if t.sc.running == s.sc.running then t.sc.changes == s.sc.changes && t.hv.trust == s.hv.trust && t.hv.ids == s.hv.ids
            else
              && t.sc.changes == n
              && if n % 8 == 0 then t.hv.trust == HvSpec.Poll(s.hv, a.now).trust && t.hv.ids == HvSpec.Poll(s.hv, a.now).ids
                 else t.hv.trust == s.hv.trust && t.hv.ids == s.hv.ids
  {
    hide Choose, SlotReady, HvSpec.Poll, Move;
    MoveParts(s, a);
    PastWfiPolls(s.sc, s.hv, a.now);
    PollQuiet(At(s, a), a.now);
  }

  lemma PastWfiPolls(sc: Sched, h: Hv, now: u64)
    requires Sized(h) && Seated(sc, h)
    ensures HvSpec.Poll(PastWfi(sc, h), now).trust == HvSpec.Poll(h, now).trust
    ensures HvSpec.Poll(PastWfi(sc, h), now).ids == HvSpec.Poll(h, now).ids
  {
    hide PastWfi;
    assert PastWfi(sc, h) == h.(vcpus := PastWfi(sc, h).vcpus) by { PastWfiFrame(sc, h); }
    if h.ids.up {
      ScanFrame(h, PastWfi(sc, h), MAX_VMS, now);
      PromoteFrame(HvSpec.PollScan(h, MAX_VMS, now), HvSpec.PollScan(PastWfi(sc, h), MAX_VMS, now), MAX_VMS, now);
    }
  }

  lemma PastWfiFrame(sc: Sched, h: Hv)
    requires Sized(h) && Seated(sc, h)
    ensures PastWfi(sc, h) == h.(vcpus := PastWfi(sc, h).vcpus)
  {
  }

  lemma OneFrame(h: Hv, g: Hv, id: int, now: u64)
    requires Sized(h) && Sized(g) && ValidId(id) && g == h.(vcpus := g.vcpus)
    ensures HvSpec.PollOne(g, id, now) == HvSpec.PollOne(h, id, now).(vcpus := g.vcpus)
    ensures HvSpec.PromoteOne(g, id, now) == HvSpec.PromoteOne(h, id, now).(vcpus := g.vcpus)
    ensures HvSpec.PromoteOne(h, id, now).trust.up == h.trust.up
  {
  }

  lemma {:induction false} ScanFrame(h: Hv, g: Hv, n: nat, now: u64)
    requires Sized(h) && Sized(g) && n <= MAX_VMS && g == h.(vcpus := g.vcpus)
    ensures HvSpec.PollScan(g, n, now) == HvSpec.PollScan(h, n, now).(vcpus := g.vcpus)
  {
    hide HvSpec.PollOne, HvSpec.PromoteOne;
    if n > 0 {
      ScanFrame(h, g, n - 1, now);
      OneFrame(HvSpec.PollScan(h, n - 1, now), HvSpec.PollScan(g, n - 1, now), n, now);
    }
  }

  lemma {:induction false} PromoteFrame(h: Hv, g: Hv, n: nat, now: u64)
    requires Sized(h) && Sized(g) && n <= MAX_VMS && g == h.(vcpus := g.vcpus)
    ensures HvSpec.Promote(g, n, now) == HvSpec.Promote(h, n, now).(vcpus := g.vcpus)
  {
    hide HvSpec.PollOne, HvSpec.PromoteOne;
    if n > 0 && h.trust.up {
      PromoteFrame(h, g, n - 1, now);
      OneFrame(HvSpec.Promote(h, n - 1, now), HvSpec.Promote(g, n - 1, now), n, now);
    }
  }

  // ---------- what every run keeps ----------

  lemma VcpuGentle(h: Hv, g: Hv)
    requires Sized(h) && Sized(g) && h.trust.up && g == h.(vcpus := g.vcpus)
    ensures Gentle(h, g)
  {
    SameLevels(h, g);
  }

  lemma DispatchGentle(sc: Sched, h: Hv, j: nat, now: u64)
    requires Sized(h) && h.trust.up && Seated(sc, h) && j < |sc.slots| && SlotReady(h, sc.slots[j])
    ensures Gentle(h, Dispatch(sc, h, j, now).hv)
  {
    hide HvSpec.Poll, Gentle;
    PollGentle(h, now);
    PollQuiet(h, now);
    VcpuGentle(h, h);
    var p := Polled(sc, h, sc.slots[j].vm, now).hv;
    GentleUp(h, p);
    VcpuGentle(p, Dispatch(sc, h, j, now).hv);
    GentleTwice(h, p, Dispatch(sc, h, j, now).hv);
  }

  lemma ScheduleGentle(sc: Sched, h: Hv, wfi: bool, now: u64)
    requires Sized(h) && h.trust.up && Seated(sc, h) && sc.slots != []
    ensures Gentle(h, Schedule(sc, h, wfi, now).sys.hv)
  {
    hide Dispatch, Gentle;
    match Choose(sc.slots, sc.cur, sc.running, Turn(wfi, Runnable(sc.slots, h)))
    case None => VcpuGentle(h, h);
    case Some(j) => DispatchGentle(sc, h, j, now);
  }

  /** Scheduling obeys what every event obeys. */
  lemma MoveTame(s: Sys, a: Act)
    requires SysOk(s) && s.hv.trust.up
    ensures Tame(s.hv, EventOf(a), Move(s, a).hv)
  {
    hide Schedule, Step, Gentle, Tame;
    match a
    case AEvent(e, now) => StepTame(s.hv, e, now);
    case ATimer(now) =>
      ScheduleGentle(s.sc, s.hv, false, now);
      GentleTame(s.hv, EPoll, Move(s, a).hv);
    case AWfi(now) =>
      var h := PastWfi(s.sc, s.hv);
      VcpuGentle(s.hv, h);
      ScheduleGentle(s.sc, h, true, now);
      GentleTwice(s.hv, h, Move(s, a).hv);
      GentleTame(s.hv, EPoll, Move(s, a).hv);
  }

  /** With scheduling in between, too, no run takes a table page, and none lets a blocked
      VM run unless one is resumed by hypercall. */
  lemma {:induction false} MovesTame(s: Sys, acts: seq<Act>)
    requires SysOk(s) && s.hv.trust.up
    ensures var g := Moves(s, acts).hv;
            && g.trust.up && Evolved(s.hv, g)
            && (Furnished(s.hv) ==> SameTables(g.s2, s.hv.s2) && Furnished(g))
            && (Contained(s.hv) && CalmActs(s, acts) ==> Contained(g))
  {
    hide Contained, ResumesBlocked, Move, Furnished;
    if acts != [] {
      var init, a := acts[..|acts| - 1], acts[|acts| - 1];
      var t := Moves(s, init);
      MovesTame(s, init);
      MoveTame(t, a);
      if Furnished(s.hv) { TameFurnished(t.hv, EventOf(a), Move(t, a).hv); }
    }
  }

  /** Whatever happens in whatever order, a timer interrupt or a WFI never dispatches a
      VM that is quarantined or revoked at that moment. */
  lemma BlockedNeverPicked(s: Sys, acts: seq<Act>, wfi: bool)
    requires SysOk(s) && s.hv.trust.up && Contained(s.hv) && CalmActs(s, acts)
    ensures var t := Moves(s, acts);
            Next(t, wfi).Some? ==>
              var vm := t.sc.slots[Next(t, wfi).value].vm;
              Exists(t.hv, vm) && t.hv.vms[vm - 1].state == Running && !Blocked(t.hv.trust.recs[vm - 1].level)
  {
    hide Moves, CalmActs;
    MovesTame(s, acts);
    var t := Moves(s, acts);
    if Next(t, wfi).Some? {
      var vm := t.sc.slots[Next(t, wfi).value].vm;
      assert CellContained(CellOf(t.hv, vm - 1));
    }
  }

  /** The VM on the processor is quarantined or revoked. */
  predicate RunsBlocked(s: Sys)
    requires SysOk(s)
  {
    Exists(s.hv, s.sc.running) && Blocked(s.hv.trust.recs[s.sc.running - 1].level)
  }

  predicate NothingReady(slots: seq<Slot>, h: Hv)
    requires Sized(h)
  {
    forall j :: 0 <= j < |slots| ==> !SlotReady(h, slots[j])
  }

  lemma NoneReady(s: Sys, wfi: bool)
    requires SysOk(s)
    ensures Next(s, wfi).None? <==> NothingReady(s.sc.slots, s.hv)
  {
    hide SlotReady, Choose;
    forall j | 0 <= j < |s.sc.slots| && SlotReady(s.hv, s.sc.slots[j]) ensures Next(s, wfi).Some? {
      ChooseNearest(s.sc.slots, s.sc.cur, s.sc.running, Turn(wfi, Runnable(s.sc.slots, s.hv)), j);
    }
  }

  lemma DispatchedRuns(sc: Sched, h: Hv, j: nat, now: u64)
    requires Sized(h) && h.trust.up && Contained(h) && Seated(sc, h) && j < |sc.slots| && SlotReady(h, sc.slots[j])
    ensures var t := Dispatch(sc, h, j, now);
            && t.sc.running == sc.slots[j].vm && Exists(t.hv, t.sc.running)
            && !Blocked(t.hv.trust.recs[t.sc.running - 1].level)
  {
    var t := Dispatch(sc, h, j, now);
    DispatchGentle(sc, h, j, now);
    GentleTame(h, EPoll, t.hv);
    hide Gentle, HvSpec.Poll;
    PollQuiet(h, now);
    assert t.hv.vms == h.vms;
    assert CellContained(CellOf(t.hv, sc.slots[j].vm - 1));
  }

  /** A timer interrupt or a WFI takes a blocked VM off the processor, exactly if some
      slot can run; if none can, the blocked VM goes on executing. */
  lemma BlockedLeaves(s: Sys, a: Act)
    requires SysOk(s) && s.hv.trust.up && Contained(s.hv) && !a.AEvent?
    ensures RunsBlocked(Move(s, a)) <==> RunsBlocked(s) && NothingReady(s.sc.slots, s.hv)
  {
    hide Contained, SlotReady, Choose, Dispatch, NothingReady;
    NoneReady(s, a.AWfi?);
    var h := if a.AWfi? then PastWfi(s.sc, s.hv) else s.hv;
    if a.AWfi? {
      PastWfiSame(s.sc, s.hv);
      PastWfiContained(s.sc, s.hv);
    }
    if Next(s, a.AWfi?).Some? {
      DispatchedRuns(s.sc, h, Next(s, a.AWfi?).value, a.now);
    }
  }

  lemma PastWfiContained(sc: Sched, h: Hv)
    requires Sized(h) && Seated(sc, h)
    ensures Contained(h) <==> Contained(PastWfi(sc, h))
    ensures PastWfi(sc, h).trust == h.trust && PastWfi(sc, h).vms == h.vms
  {
    assert forall i :: 0 <= i < |h.vms| ==> CellOf(PastWfi(sc, h), i) == CellOf(h, i);
  }

  ghost predicate Kept(h: Hv, e: Event, g: Hv)
    requires Sized(h)
  {
    (Base(h) && Early(h, e) ==> Base(g)) && (Sound(h) && Admissible(h, e) ==> Sound(g))
  }

  lemma VcpuKept(h: Hv, g: Hv)
    requires Sized(h) && Sized(g) && g == h.(vcpus := g.vcpus) && |g.vcpus| == |h.vcpus|
    ensures (Base(h) ==> Base(g)) && (Sound(h) ==> Sound(g))
  {
    if Base(h) {
      forall i | 0 <= i < |g.vms| ensures VmOk(g, i) { assert VmOk(h, i); }
      UseSame(h, g, |h.vms|);
    }
    if Sound(h) {
      forall i | 0 <= i < |g.vms| ensures CellOk(CellOf(g, i)) { assert CellOf(g, i) == CellOf(h, i); }
    }
  }

  lemma PolledKept(sc: Sched, h: Hv, vm: int, now: u64)
    requires Sized(h)
    ensures var g := Polled(sc, h, vm, now).hv; (Base(h) ==> Base(g)) && (Sound(h) ==> Sound(g))
  {
    if Base(h) { PollBase(h, now); }
    if Sound(h) {
      StepKeeps(h, EPoll, now);
      assert Step(h, EPoll, now) == HvSpec.Poll(h, now);
    }
    hide Sound, Base, HvSpec.Poll;
  }

  lemma DispatchKept(sc: Sched, h: Hv, j: nat, now: u64)
    requires Sized(h) && Seated(sc, h) && j < |sc.slots| && SlotReady(h, sc.slots[j])
    ensures var g := Dispatch(sc, h, j, now).hv; (Base(h) ==> Base(g)) && (Sound(h) ==> Sound(g))
  {
    hide Sound, Base, HvSpec.Poll, SlotReady;
    PolledKept(sc, h, sc.slots[j].vm, now);
    DispatchSeats(sc, h, j, now);
    var p := Polled(sc, h, sc.slots[j].vm, now).hv;
    hide Polled, Dispatch;
    VcpuKept(p, Dispatch(sc, h, j, now).hv);
  }

  lemma ScheduleKept(sc: Sched, h: Hv, wfi: bool, now: u64)
    requires Sized(h) && Seated(sc, h) && sc.slots != []
    ensures var g := Schedule(sc, h, wfi, now).sys.hv; (Base(h) ==> Base(g)) && (Sound(h) ==> Sound(g))
  {
    hide Sound, Base, Dispatch;
    match Choose(sc.slots, sc.cur, sc.running, Turn(wfi, Runnable(sc.slots, h)))
    case None =>
    case Some(j) => DispatchKept(sc, h, j, now);
  }

  lemma MoveKept(s: Sys, a: Act)
    requires SysOk(s)
    ensures Kept(s.hv, EventOf(a), Move(s, a).hv)
  {
    match a
    case AEvent(e, now) =>
      if Base(s.hv) && Early(s.hv, e) { StepBase(s.hv, e, now); }
      if Sound(s.hv) && Admissible(s.hv, e) { StepKeeps(s.hv, e, now); }
    case ATimer(now) => ScheduleKept(s.sc, s.hv, false, now);
    case AWfi(now) =>
      VcpuKept(s.hv, PastWfi(s.sc, s.hv));
      ScheduleKept(s.sc, PastWfi(s.sc, s.hv), true, now);
  }

  /** With scheduling in between, too, early registrations keep the vCPU pool within its
      bound and admissible ones the fault budget. */
  lemma {:induction false} MovesKeep(s: Sys, acts: seq<Act>)
    requires SysOk(s)
    ensures Base(s.hv) && EarlyActs(s, acts) ==> Base(Moves(s, acts).hv)
    ensures Sound(s.hv) && AdmissibleActs(s, acts) ==> Sound(Moves(s, acts).hv)
  {
    hide Sound, Base, Move, Early, Admissible;
    if acts != [] {
      MovesKeep(s, acts[..|acts| - 1]);
      MoveKept(Moves(s, acts[..|acts| - 1]), acts[|acts| - 1]);
    }
  }

  // ---------- the scheduler in place ----------

  /** One slot for each of the first n vCPUs of a VM; the RTOS gets half a second, the
      others two seconds. */
  function VmSlots(vm: Vm, n: nat): (r: seq<Slot>)
    ensures |r| == n
  {
    seq(n, v requires 0 <= v => Slot(vm.id, v, if vm.kind == Rtos then 500_000 else 2_000_000))
  }

  function AllSlots(vms: seq<Vm>): seq<Slot> {
    if vms == [] then []
    else
      var vm := vms[|vms| - 1];
      AllSlots(vms[..|vms| - 1]) + VmSlots(vm, |vm.vcpus|)
  }

  function First16(slots: seq<Slot>): seq<Slot> {
    if |slots| <= MAX_SLOTS then slots else slots[..MAX_SLOTS]
  }

  /** The slots of the machine that boot leaves. */
  lemma BootedSlots(es: seq<HvBoot.Entry>, genuine: set<int>, now: u64)
    requires HvBoot.AllFit(es)
    ensures First16(AllSlots(HvBoot.Boot(es, genuine, now).vms))
         == [Slot(1, 0, 2_000_000), Slot(2, 0, 500_000), Slot(3, 0, 2_000_000), Slot(3, 1, 2_000_000)]
  {
    hide HvBoot.AllFit, HvBoot.ForVm, HvBoot.Boot, TableBudget.BootTables;
    HvBoot.BootIsSound(es, genuine, now);
    var vms := HvBoot.Boot(es, genuine, now).vms;
    ThreeVms(vms);
  }

  lemma ThreeVms(vms: seq<Vm>)
    requires |vms| == 3
    ensures AllSlots(vms) == VmSlots(vms[0], |vms[0].vcpus|) + VmSlots(vms[1], |vms[1].vcpus|) + VmSlots(vms[2], |vms[2].vcpus|)
  {
    assert vms[..2][..1] == vms[..1] && vms[..1][..0] == [];
    assert AllSlots(vms[..1]) == VmSlots(vms[0], |vms[0].vcpus|);
  }

  function Resliced(slots: seq<Slot>, vm: int, dur: u32): (r: seq<Slot>)
    ensures |r| == |slots|
    ensures forall i :: 0 <= i < |slots| ==> r[i] == if slots[i].vm == vm then slots[i].(dur := dur) else slots[i]
  {
    seq(|slots|, i requires 0 <= i < |slots| => if slots[i].vm == vm then slots[i].(dur := dur) else slots[i])
  }

  predicate HasSlot(slots: seq<Slot>, vm: int) {
    exists i :: 0 <= i < |slots| && slots[i].vm == vm
  }

  /** A slice between 100 us and one second. */
  function Clamp(dur: u32): (r: u32)
    ensures 100 <= r <= 1_000_000 && (100 <= dur <= 1_000_000 ==> r == dur)
    ensures dur < 100 ==> r == 100
    ensures dur > 1_000_000 ==> r == 1_000_000
  {
    if dur < 100 then 100 else if dur > 1_000_000 then 1_000_000 else dur
  }

  function Eligible(slots: seq<Slot>, h: Hv, skip: Option<int>): (ok: seq<bool>)
    requires Sized(h)
    ensures |ok| == |slots|
    ensures ok == match skip case None => Runnable(slots, h) case Some(vm) => Others(slots, Runnable(slots, h), vm)
  {
    seq(|slots|, i requires 0 <= i < |slots| => skip != Some(slots[i].vm) && SlotReady(h, slots[i]))
  }

  lemma NextIndex(cur: nat, n: nat)
    requires cur < n
    ensures (cur + 1) % n == if cur + 1 == n then 0 else cur + 1
  {
    if cur + 1 == n { DivMod(cur + 1, n, 1, 0); } else { DivMod(cur + 1, n, 0, cur + 1); }
  }

  method Advance(cur: nat, n: nat) returns (i: nat)
    requires cur < n
    ensures i == Ahead(n, cur, 1)
  {
    NextIndex(cur, n);
    i := (cur + 1) % n;
  }

  class Scheduler {
    var slots: seq<Slot>
    var cur: nat
    var current: Option<nat>
    var running: int
    var changes: u32

    ghost function View(): Sched
      reads this
    {
      Sched(slots, cur, current, running, changes)
    }

    constructor ()
      ensures View() == Sched([], 0, None, 0, 0)
    {
      slots, cur, current, running, changes := [], 0, None, 0, 0;
    }

    method AddSlot(vm: int, vcpu: nat, dur: u32)
      modifies this`slots
      ensures slots == if |old(slots)| >= MAX_SLOTS then old(slots)
                       else old(slots) + [Slot(vm, vcpu, if dur == 0 then 1000 else dur)]
    {
      if |slots| < MAX_SLOTS {
        slots := slots + [Slot(vm, vcpu, if dur == 0 then 1000 else dur)];
      }
    }

    /** All vCPUs of all VMs in order, as many as there is room for. */
    method Init(hv: Hypervisor)
      requires hv.Valid()
      modifies this`slots, this`cur
      ensures slots == First16(AllSlots(hv.vms)) && cur == 0
    {
      slots, cur := [], 0;
      var i := 0;
      while i < |hv.vms|
        invariant 0 <= i <= |hv.vms| && slots == First16(AllSlots(hv.vms[..i])) && cur == 0
      {
        AddVm(hv.vms[i], hv.vms[..i]);
        assert hv.vms[..i + 1][..i] == hv.vms[..i];
        i := i + 1;
      }
      assert hv.vms[..i] == hv.vms;
    }

    method AddVm(vm: Vm, ghost before: seq<Vm>)
      requires slots == First16(AllSlots(before))
      modifies this`slots
      ensures slots == First16(AllSlots(before) + VmSlots(vm, |vm.vcpus|))
    {
      var v := 0;
      assert AllSlots(before) + VmSlots(vm, 0) == AllSlots(before);
      while v < |vm.vcpus|
        invariant 0 <= v <= |vm.vcpus| && slots == First16(AllSlots(before) + VmSlots(vm, v))
      {
        AddSlot(vm.id, v, if vm.kind == Rtos then 500_000 else 2_000_000);
        v := v + 1;
        assert VmSlots(vm, v) == VmSlots(vm, v - 1) + [Slot(vm.id, v - 1, if vm.kind == Rtos then 500_000 else 2_000_000)];
      }
    }

    method SetSlice(vm: int, dur: u32) returns (e: Err)
      modifies this`slots
      ensures slots == Resliced(old(slots), vm, Clamp(dur))
      ensures e == if HasSlot(old(slots), vm) then Ok else NotFound
    {
      var d := Clamp(dur);
      var found := false;
      var i := 0;
      while i < |slots|
        invariant 0 <= i <= |slots| == |old(slots)|
        invariant found <==> HasSlot(old(slots)[..i], vm)
        invariant forall j :: 0 <= j < i ==> slots[j] == Resliced(old(slots), vm, d)[j]
        invariant forall j :: i <= j < |slots| ==> slots[j] == old(slots)[j]
      {
        assert old(slots)[..i + 1] == old(slots)[..i] + [old(slots)[i]];
        if slots[i].vm == vm {
          slots := slots[i := slots[i].(dur := d)];
          found := true;
          assert old(slots)[..i + 1][i].vm == vm;
        } else {
          FoundSame(old(slots), vm, i);
        }
        i := i + 1;
      }
      assert old(slots)[..i] == old(slots);
      e := if found then Ok else NotFound;
    }

    method SlotVcpu(hv: Hypervisor, i: nat) returns (vc: Option<nat>)
      requires hv.Valid() && i < |slots|
      ensures vc == VcpuAt(hv.State(), slots[i])
    {
      hide PageTables.Valid, Ring.Valid;
      var vm := hv.VmById(slots[i].vm);
      if vm.None? || hv.vms[vm.value].state != Running {
        return None;
      }
      if slots[i].vcpu >= |hv.vms[vm.value].vcpus| {
        return None;
      }
      var v := hv.vms[vm.value].vcpus[slots[i].vcpu];
      if hv.vcpus[v].state == VStopped {
        return None;
      }
      return Some(v);
    }

    method TryAt(hv: Hypervisor, i: nat, skip: Option<int>) returns (vc: Option<nat>)
      requires hv.Valid() && i < |slots|
      ensures vc == if Eligible(slots, hv.State(), skip)[i] then VcpuAt(hv.State(), slots[i]) else None
      ensures vc.Some? <==> Eligible(slots, hv.State(), skip)[i]
    {
      vc := None;
      if skip != Some(slots[i].vm) {
        vc := SlotVcpu(hv, i);
      }
    }

    /** From slot `start` forward to the next that can run and is not of the VM to skip,
        once round at most, back to the start. */
    method Forward(hv: Hypervisor, start: nat, skip: Option<int>) returns (i: nat, vc: Option<nat>)
      requires hv.Valid() && start < |slots|
      ensures var r := Pick(Eligible(slots, hv.State(), skip), start, 1);
              && i == (if r.Some? then r.value else start)
              && vc == (if r.Some? then VcpuAt(hv.State(), slots[r.value]) else None)
              && (vc.Some? <==> r.Some?)
    {
      hide SlotReady, VcpuAt, Eligible, Runnable, Pick, Dist, Ahead;
      ghost var ok := Eligible(slots, hv.State(), skip);
      ghost var d := 0;
      var done := false;
      i := start;
      while !done
        invariant 0 <= d <= |slots| && i < |slots|
        invariant i == (if d == 0 then start else Ahead(|slots|, start, d))
        invariant done <==> d == |slots|
        invariant Pick(ok, start, 1) == Pick(ok, start, d + 1)
        decreases |slots| - d
      {
        i := Advance(i, |slots|);
        vc := TryAt(hv, i, skip);
        PickStep(ok, start, d + 1);
        if d > 0 { PickStep(ok, start, d); }
        d := d + 1;
        if vc.Some? {
          return;
        }
        done := i == start;
      }
      PickStep(ok, start, |slots|);
      vc := None;
    }

    method Scan(hv: Hypervisor, skip: Option<int>) returns (vc: Option<nat>)
      requires hv.Valid() && Seated(View(), hv.State()) && slots != []
      modifies this`cur
      ensures var r := Pick(Eligible(slots, hv.State(), skip), old(cur), 1);
              && cur == (if r.Some? then r.value else old(cur))
              && vc == (if r.Some? then VcpuAt(hv.State(), slots[r.value]) else None)
              && (vc.Some? <==> r.Some?)
    {
      hide SlotReady, VcpuAt, Eligible, Pick;
      var i;
      i, vc := Forward(hv, cur, skip);
      cur := i;
    }

    method NoteChange(hv: Hypervisor, vm: int, now: u64)
      requires hv.Valid()
      modifies this`changes, hv, hv.audit, hv.audit.log
      ensures hv.Valid() && Sys(View(), hv.State()) == Polled(old(View()), old(hv.State()), vm, now)
      ensures hv.vcpus == old(hv.vcpus)
    {
      hide HvSpec.Poll;
      PollQuiet(hv.State(), now);
      if running != vm {
        changes := Inc32(changes);
        if changes % 8 == 0 {
          var found := hv.Poll(now);
        }
      }
    }

    method SwapVcpus(hv: Hypervisor, next: nat)
      requires hv.Valid() && next < |hv.vcpus| && (current.Some? ==> current.value < |hv.vcpus|)
      modifies hv`vcpus
      ensures hv.Valid() && hv.vcpus == SwitchVcpus(old(hv.vcpus), current, next)
    {
      hide PageTables.Valid, Ring.Valid;
      if current.Some? {
        hv.vcpus := hv.vcpus[current.value := hv.vcpus[current.value].(state := VReady)];
      }
      hv.vcpus := hv.vcpus[next := hv.vcpus[next].(state := VRunning)];
    }

    /** Hand the processor over; the machine keeps everything else. */
    method SeatNext(hv: Hypervisor, next: nat)
      requires hv.Valid() && cur < |slots| && next < |hv.vcpus| && (current.Some? ==> current.value < |hv.vcpus|)
      modifies this`current, this`running, hv`vcpus
      ensures hv.Valid() && Sys(View(), hv.State()) == Seat(Sys(old(View()), old(hv.State())), cur, next)
    {
      hide PageTables.Valid, Ring.Valid, SwitchVcpus;
      if current != Some(next) {
        SwapVcpus(hv, next);
        current := Some(next);
      }
      running := slots[cur].vm;
    }

    method Switch(hv: Hypervisor, next: nat, now: u64, ghost was: Sched)
      requires hv.Valid() && Seated(was, hv.State()) && cur < |slots| && View() == was.(cur := cur)
      requires VcpuAt(hv.State(), slots[cur]) == Some(next)
      modifies this`current, this`running, this`changes, hv, hv.audit, hv.audit.log
      ensures hv.Valid() && Sys(View(), hv.State()) == Dispatch(was, old(hv.State()), cur, now)
    {
      DispatchSeats(was, hv.State(), cur, now);
      hide PageTables.Valid, Ring.Valid, Dispatch, Seat, Polled, SlotReady;
      NoteChange(hv, slots[cur].vm, now);
      SeatNext(hv, next);
    }

    method OnTimer(hv: Hypervisor, now: u64) returns (timer: u32)
      requires hv.Valid() && Seated(View(), hv.State())
      modifies this, hv, hv.audit, hv.audit.log
      ensures hv.Valid() && Result(Sys(View(), hv.State()), timer) == Tick(old(View()), old(hv.State()), now)
      ensures timer == if NothingReady(slots, old(hv.State())) then 10_000 else slots[cur].dur
    {
      hide Pick, Dispatch, Eligible, SlotReady, NothingReady;
      if slots == [] {
        NoSlots(hv.State());
        return MAJOR_FRAME;
      }
      ghost var was := View();
      TimerSlice(was, hv.State(), false, now);
      var next := Scan(hv, None);
      if next.None? {
        return MAJOR_FRAME;
      }
      Switch(hv, next.value, now, was);
      timer := slots[cur].dur;
    }

    method SkipWfi(hv: Hypervisor)
      requires hv.Valid() && Seated(View(), hv.State())
      modifies hv`vcpus
      ensures hv.Valid() && hv.State() == PastWfi(View(), old(hv.State()))
    {
      hide PageTables.Valid, Ring.Valid;
      if current.Some? {
        var c := hv.vcpus[current.value];
        hv.vcpus := hv.vcpus[current.value := c.(elr := Add64(c.elr, 4))];
      }
    }

    /** `prev` gives up the processor; with no slot at all the source divides by zero. */
    method OnWfi(hv: Hypervisor, now: u64) returns (timer: u32)
      requires hv.Valid() && Seated(View(), hv.State()) && slots != []
      modifies this, hv, hv.audit, hv.audit.log
      ensures hv.Valid() && Result(Sys(View(), hv.State()), timer) == Yield(old(View()), old(hv.State()), now)
      ensures timer == if NothingReady(slots, old(hv.State())) then 10_000 else slots[cur].dur
    {
      hide Pick, Dispatch, Eligible, SlotReady, NothingReady;
      WfiSlice(View(), hv.State(), now);
      SkipWfi(hv);
      ghost var was := View();
      var next := Scan(hv, Some(running));
      if next.None? {
        next := Scan(hv, None);
      }
      if next.None? {
        return MAJOR_FRAME;
      }
      Switch(hv, next.value, now, was);
      timer := slots[cur].dur;
    }
  }

  lemma DispatchSeats(sc: Sched, h: Hv, j: nat, now: u64)
    requires Sized(h) && Seated(sc, h) && j < |sc.slots| && SlotReady(h, sc.slots[j])
    ensures var p, next := Polled(sc, h, sc.slots[j].vm, now), VcpuAt(h, sc.slots[j]).value;
            && p.sc.slots == sc.slots && p.sc.current == sc.current && next < |h.vcpus| == |p.hv.vcpus|
            && Dispatch(sc, h, j, now) == Seat(p, j, next)
            && Seat(p.(sc := p.sc.(cur := j)), j, next) == Seat(p, j, next)
            && Polled(sc.(cur := j), h, sc.slots[j].vm, now) == p.(sc := p.sc.(cur := j))
  {
    hide HvSpec.Poll;
    PollQuiet(h, now);
  }

  lemma NoSlots(h: Hv)
    requires Sized(h)
    ensures NothingReady([], h)
  {
  }

  lemma WfiSlice(sc: Sched, h: Hv, now: u64)
    requires Sized(h) && Seated(sc, h) && sc.slots != []
    ensures var r := Yield(sc, h, now);
            && r.sys.sc.slots == sc.slots
            && r.timer == if NothingReady(sc.slots, h) then 10_000 else r.sys.sc.slots[r.sys.sc.cur].dur
  {
    hide Schedule;
    TimerSlice(sc, PastWfi(sc, h), true, now);
    PastWfiSame(sc, h);
    assert forall j :: 0 <= j < |sc.slots| ==>
        (SlotReady(PastWfi(sc, h), sc.slots[j]) <==> Runnable(sc.slots, PastWfi(sc, h))[j])
        && (SlotReady(h, sc.slots[j]) <==> Runnable(sc.slots, h)[j]);
  }

  lemma FoundSame(slots: seq<Slot>, vm: int, i: nat)
    requires i < |slots| && slots[i].vm != vm
    ensures HasSlot(slots[..i + 1], vm) <==> HasSlot(slots[..i], vm)
  {
    if HasSlot(slots[..i], vm) {
      var j :| 0 <= j < i && slots[..i][j].vm == vm;
      assert slots[..i + 1][j].vm == vm;
    }
    if HasSlot(slots[..i + 1], vm) {
      var j :| 0 <= j < i + 1 && slots[..i + 1][j].vm == vm;
      assert j < i && slots[..i][j].vm == vm;
    }
  }
}
