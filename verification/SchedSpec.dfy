/** Round-robin order: which slot is next, and how long a VM or a slot can wait. */
module SchedSpec {
  import opened Words

  datatype Slot = Slot(vm: int, vcpu: nat, dur: u32)

  // ---------- the cyclic scan ----------

  /** Steps from one slot forward to another, a full circle back to itself. */
  function Dist(n: nat, from: nat, to: nat): nat
    requires from < n && to < n
  {
    if to > from then to - from else to - from + n
  }

  function Ahead(n: nat, cur: nat, d: nat): (i: nat)
    requires cur < n && 1 <= d <= n
    ensures i < n && Dist(n, cur, i) == d
  {
    if cur + d < n then cur + d else cur + d - n
  }

  /** Scan forward from distance d, once round at most. */
  function Pick(ok: seq<bool>, cur: nat, d: nat): (r: Option<nat>)
    requires cur < |ok| && 1 <= d <= |ok| + 1
    ensures r.Some? ==> r.value < |ok| && ok[r.value]
    decreases |ok| + 1 - d
  {
    if d > |ok| then None
    else if ok[Ahead(|ok|, cur, d)] then Some(Ahead(|ok|, cur, d))
    else Pick(ok, cur, d + 1)
  }

  /** The scan finds the eligible slot nearest ahead, if there is any. */
  lemma {:induction false} PickNearest(ok: seq<bool>, cur: nat, d: nat, i: nat)
    requires cur < |ok| && 1 <= d <= |ok| + 1 && i < |ok| && ok[i] && Dist(|ok|, cur, i) >= d
    ensures var r := Pick(ok, cur, d); r.Some? && d <= Dist(|ok|, cur, r.value) <= Dist(|ok|, cur, i)
    decreases |ok| + 1 - d
  {
    if !ok[Ahead(|ok|, cur, d)] {
      assert Dist(|ok|, cur, i) != d;
      PickNearest(ok, cur, d + 1, i);
    }
  }

  lemma PickStep(ok: seq<bool>, cur: nat, d: nat)
    requires cur < |ok| && 1 <= d <= |ok|
    ensures Pick(ok, cur, d) == if ok[Ahead(|ok|, cur, d)] then Some(Ahead(|ok|, cur, d)) else Pick(ok, cur, d + 1)
    ensures Ahead(|ok|, cur, d) == cur <==> d == |ok|
    ensures d < |ok| ==> Ahead(|ok|, Ahead(|ok|, cur, d), 1) == Ahead(|ok|, cur, d + 1)
    ensures Pick(ok, cur, |ok| + 1).None?
  {
  }

  /** The slots of the VM that gave up the processor are passed over. */
  function Others(slots: seq<Slot>, ready: seq<bool>, vm: int): (ok: seq<bool>)
    requires |ready| == |slots|
    ensures |ok| == |slots|
  {
    seq(|slots|, i requires 0 <= i < |slots| => ready[i] && slots[i].vm != vm)
  }

  /** One timer interrupt or one WFI trap, with the slots that can run at that moment. */
  datatype Turn = Turn(wfi: bool, ready: seq<bool>)

  function Choose(slots: seq<Slot>, cur: nat, vm: int, t: Turn): (r: Option<nat>)
    requires cur < |slots| == |t.ready|
    ensures r.Some? ==> r.value < |slots| && t.ready[r.value]
  {
    if t.wfi && Pick(Others(slots, t.ready, vm), cur, 1).Some?
    then Pick(Others(slots, t.ready, vm), cur, 1)
    else Pick(t.ready, cur, 1)
  }

  /** What the choice means: a timer takes the nearest runnable slot ahead; a WFI takes
      the nearest one of another VM, and any only if no other VM can run. */
  lemma ChooseNearest(slots: seq<Slot>, cur: nat, vm: int, t: Turn, i: nat)
    requires cur < |slots| == |t.ready| && i < |slots| && t.ready[i]
    ensures var r := Choose(slots, cur, vm, t);
            && r.Some?
            && (!t.wfi || slots[i].vm != vm || slots[r.value].vm == vm ==>
                  Dist(|slots|, cur, r.value) <= Dist(|slots|, cur, i))
            && (t.wfi && slots[i].vm != vm ==> slots[r.value].vm != vm)
  {
    var ok := Others(slots, t.ready, vm);
    PickNearest(t.ready, cur, 1, i);
    if ok[i] { PickNearest(ok, cur, 1, i); }
  }

  // ---------- waiting ----------

  predicate Turns(slots: seq<Slot>, turns: seq<Turn>) {
    forall i :: 0 <= i < |turns| ==> |turns[i].ready| == |slots|
  }

  /** Where the scheduler stands after a turn. The VM that runs is the VM of the slot. */
  function Moved(slots: seq<Slot>, cur: nat, t: Turn): (r: nat)
    requires cur < |slots| == |t.ready|
    ensures r < |slots|
  {
    match Choose(slots, cur, slots[cur].vm, t)
    case Some(j) => j
    case None => cur
  }

  function Follow(slots: seq<Slot>, cur: nat, turns: seq<Turn>): (r: nat)
    requires cur < |slots| && Turns(slots, turns)
    ensures r < |slots|
  {
    if turns == [] then cur else Moved(slots, Follow(slots, cur, turns[..|turns| - 1]), turns[|turns| - 1])
  }

  predicate Always(turns: seq<Turn>, j: nat) {
    forall i :: 0 <= i < |turns| ==> j < |turns[i].ready| && turns[i].ready[j]
  }

  /** Some turn dispatches the VM. */
  predicate Served(slots: seq<Slot>, cur: nat, turns: seq<Turn>, vm: int)
    requires cur < |slots| && Turns(slots, turns)
    decreases |turns|
  {
    turns != [] &&
    (var r := Choose(slots, cur, slots[cur].vm, turns[0]);
     (r.Some? && slots[r.value].vm == vm) || Served(slots, Moved(slots, cur, turns[0]), turns[1..], vm))
  }

  predicate SlotServed(slots: seq<Slot>, cur: nat, turns: seq<Turn>, j: nat)
    requires cur < |slots| && Turns(slots, turns)
    decreases |turns|
  {
    turns != [] &&
    (Choose(slots, cur, slots[cur].vm, turns[0]) == Some(j)
     || SlotServed(slots, Moved(slots, cur, turns[0]), turns[1..], j))
  }

  lemma {:induction false} ServedWithinDistance(slots: seq<Slot>, cur: nat, turns: seq<Turn>, j: nat)
    requires cur < |slots| && j < |slots| && slots[cur].vm != slots[j].vm
    requires Turns(slots, turns) && Always(turns, j) && |turns| >= Dist(|slots|, cur, j)
    ensures Served(slots, cur, turns, slots[j].vm)
    decreases |turns|
  {
    ChooseNearest(slots, cur, slots[cur].vm, turns[0], j);
    var r := Choose(slots, cur, slots[cur].vm, turns[0]);
    if slots[r.value].vm != slots[j].vm {
      ServedWithinDistance(slots, r.value, turns[1..], j);
    }
  }

  /** Bounded waiting: a VM that is not running and keeps one runnable slot is
      dispatched within one turn less than there are slots, whatever mix of timer and
      WFI turns comes and whatever the other slots do. */
  lemma {:induction false} BoundedWaiting(slots: seq<Slot>, cur: nat, turns: seq<Turn>, j: nat)
    requires cur < |slots| && j < |slots| && slots[cur].vm != slots[j].vm
    requires Turns(slots, turns) && Always(turns, j) && |turns| == |slots| - 1
    ensures Served(slots, cur, turns, slots[j].vm)
  {
    ServedWithinDistance(slots, cur, turns, j);
  }

  lemma {:induction false} FollowFirst(slots: seq<Slot>, cur: nat, turns: seq<Turn>)
    requires cur < |slots| && Turns(slots, turns) && turns != []
    ensures Follow(slots, cur, turns) == Follow(slots, Moved(slots, cur, turns[0]), turns[1..])
  {
    hide Moved;
    var init := turns[..|turns| - 1];
    if init != [] {
      FollowFirst(slots, cur, init);
      assert turns[1..][..|turns| - 2] == init[1..];
    }
  }

  /** A VM that is served runs after one of the turns. */
  lemma {:induction false} ServedAt(slots: seq<Slot>, cur: nat, turns: seq<Turn>, vm: int) returns (k: nat)
    requires cur < |slots| && Turns(slots, turns) && Served(slots, cur, turns, vm)
    ensures 0 < k <= |turns| && slots[Follow(slots, cur, turns[..k])].vm == vm
    decreases |turns|
  {
    var next := Moved(slots, cur, turns[0]);
    if slots[next].vm == vm {
      k := 1;
      assert turns[..1][..0] == [];
    } else {
      var k' := ServedAt(slots, next, turns[1..], vm);
      k := k' + 1;
      assert turns[..k][1..] == turns[1..][..k'];
      FollowFirst(slots, cur, turns[..k]);
    }
  }

  // ---------- single slots ----------

  /** Going round from slot j, another VM's slot q comes before p, a slot of j's VM. */
  predicate Straddled(slots: seq<Slot>, j: nat, p: nat, q: nat) {
    && j < |slots| && p < |slots| && q < |slots| && p != j
    && slots[p].vm == slots[j].vm && slots[q].vm != slots[j].vm
    && Dist(|slots|, j, q) < Dist(|slots|, j, p)
  }

  predicate Exposed(slots: seq<Slot>, j: nat) {
    exists p: nat, q: nat :: p < |slots| && q < |slots| && Straddled(slots, j, p, q)
  }

  lemma {:induction false} SlotWithinDistance(slots: seq<Slot>, cur: nat, turns: seq<Turn>, j: nat)
    requires cur < |slots| && j < |slots| && !Exposed(slots, j)
    requires Turns(slots, turns) && Always(turns, j) && |turns| >= Dist(|slots|, cur, j)
    ensures SlotServed(slots, cur, turns, j)
    decreases |turns|
  {
    var t, vm := turns[0], slots[cur].vm;
    ChooseNearest(slots, cur, vm, t, j);
    var r := Choose(slots, cur, vm, t);
    if r != Some(j) {
      if slots[r.value].vm != vm && slots[j].vm == vm && cur != j {
        assert !Straddled(slots, j, cur, r.value);
      }
      SlotWithinDistance(slots, r.value, turns[1..], j);
    }
  }

  /** Every run of this length serves the slot, from any position. */
  ghost predicate SlotFair(slots: seq<Slot>, j: nat, bound: nat) {
    forall cur: nat, turns: seq<Turn> ::
      cur < |slots| && Turns(slots, turns) && Always(turns, j) && |turns| == bound ==> SlotServed(slots, cur, turns, j)
  }

  function Three(n: nat, j: nat, p: nat, q: nat): seq<bool> {
    seq(n, i => i == j || i == p || i == q)
  }

  /** WFI from p to q, timer from q back to p, and so on. */
  function Starve(n: nat, j: nat, p: nat, q: nat, len: nat, wfi: bool): (turns: seq<Turn>)
    ensures |turns| == len && forall i :: 0 <= i < len ==> turns[i].ready == Three(n, j, p, q)
  {
    if len == 0 then [] else [Turn(wfi, Three(n, j, p, q))] + Starve(n, j, p, q, len - 1, !wfi)
  }

  lemma StarveTurn(slots: seq<Slot>, j: nat, p: nat, q: nat)
    requires Straddled(slots, j, p, q)
    ensures var ready := Three(|slots|, j, p, q);
            && Choose(slots, p, slots[p].vm, Turn(true, ready)) == Some(q)
            && Choose(slots, q, slots[q].vm, Turn(false, ready)) == Some(p)
  {
    var n := |slots|;
    var ready := Three(n, j, p, q);
    assert ready[j] && ready[p] && ready[q];
    ChooseNearest(slots, p, slots[p].vm, Turn(true, ready), q);
    ChooseNearest(slots, q, slots[q].vm, Turn(false, ready), p);
    assert Dist(n, q, p) < Dist(n, q, j) && Dist(n, q, p) < Dist(n, q, q);
  }

  /** A straddled slot can be passed over for as long as one likes, though it could run
      at every turn: its VM gives up the processor each time it would be next. */
  lemma {:induction false} Starves(slots: seq<Slot>, j: nat, p: nat, q: nat, len: nat, wfi: bool)
    requires Straddled(slots, j, p, q)
    ensures var turns := Starve(|slots|, j, p, q, len, wfi);
            && Turns(slots, turns) && Always(turns, j)
            && !SlotServed(slots, if wfi then p else q, turns, j)
  {
    var n := |slots|;
    var turns := Starve(n, j, p, q, len, wfi);
    assert Three(n, j, p, q)[j];
    if len > 0 {
      StarveTurn(slots, j, p, q);
      Starves(slots, j, p, q, len - 1, !wfi);
      assert turns[1..] == Starve(n, j, p, q, len - 1, !wfi);
    }
  }

  /** A slot that can always run is served within as many turns as there are slots
      exactly when it is not exposed; when it is, no bound at all holds. */
  lemma SlotFairness(slots: seq<Slot>, j: nat, bound: nat)
    requires j < |slots| <= bound
    ensures SlotFair(slots, j, bound) <==> !Exposed(slots, j)
  {
    if Exposed(slots, j) {
      var p: nat, q: nat :| p < |slots| && q < |slots| && Straddled(slots, j, p, q);
      Starves(slots, j, p, q, bound, true);
    } else {
      forall cur: nat, turns: seq<Turn> | cur < |slots| && Turns(slots, turns) && Always(turns, j) && |turns| == bound
        ensures SlotServed(slots, cur, turns, j)
      {
        SlotWithinDistance(slots, cur, turns, j);
      }
    }
  }

  /** The slots that boot sets up: one for each of the first two VMs, two for the third.
      Only the last can be starved. */
  lemma BootSlots(slots: seq<Slot>)
    requires |slots| == 4 && slots[0].vm == 1 && slots[1].vm == 2 && slots[2].vm == 3 && slots[3].vm == 3
    ensures !Exposed(slots, 0) && !Exposed(slots, 1) && !Exposed(slots, 2) && Exposed(slots, 3)
  {
    assert Straddled(slots, 3, 2, 0);
  }
}
