/** The monitor's other detectors for one VM, on their own: what its faults and the
    levels it is polled at make it record. */
module Detectors {
  import opened Words
  import opened HvSpec

  /** What is kept of a fault or a record. */
  datatype Entry = Entry(time: u64, faultType: u32, detail: u64)

  // ---------- repeats ----------

  function LastType(last: u32, faults: seq<Entry>): u32 {
    if faults == [] then last else faults[|faults| - 1].faultType
  }

  /** How many faults in a row had the type of the last one, for a monitor that has
      already seen `run` of type `last`. */
  function Streak(last: u32, run: nat, faults: seq<Entry>): nat {
    if faults == [] then run
    else
      var init := faults[..|faults| - 1];
      if LastType(last, faults) == LastType(last, init) then Streak(last, run, init) + 1 else 1
  }

  /** The run is counted in a 32-bit word. */
  function Repeats(last: u32, run: nat, faults: seq<Entry>): seq<Entry> {
    if faults == [] then []
    else
      var init, f := faults[..|faults| - 1], faults[|faults| - 1];
      Repeats(last, run, init)
      + if Streak(last, run, faults) % 0x1_0000_0000 == 3 then [Entry(f.time, f.faultType, 3)] else []
  }

  /** The last n faults, and not the one before them, have the same type. */
  predicate EndsWith(faults: seq<Entry>, n: nat) {
    && 1 <= n <= |faults|
    && (forall i :: |faults| - n <= i < |faults| ==> faults[i].faultType == faults[|faults| - 1].faultType)
    && (n < |faults| ==> faults[|faults| - n - 1].faultType != faults[|faults| - 1].faultType)
  }

  lemma {:induction false} StreakEnds(faults: seq<Entry>)
    requires faults != [] && forall i :: 0 <= i < |faults| ==> faults[i].faultType != 0
    ensures EndsWith(faults, Streak(0, 0, faults))
  {
    var init := faults[..|faults| - 1];
    if init != [] {
      StreakEnds(init);
      assert faults[|faults| - 2] == init[|init| - 1];
    }
  }

  /** From a monitor that has seen nothing, the streak is the length of the last run of
      equal types. */
  lemma StreakExact(faults: seq<Entry>, n: nat)
    requires faults != [] && forall i :: 0 <= i < |faults| ==> faults[i].faultType != 0
    ensures Streak(0, 0, faults) == n <==> EndsWith(faults, n)
  {
    StreakEnds(faults);
  }

  lemma OneMoreFault(last: u32, run: nat, faults: seq<Entry>, f: Entry)
    ensures LastType(last, faults + [f]) == f.faultType
    ensures Streak(last, run, faults + [f])
         == if f.faultType == LastType(last, faults) then Streak(last, run, faults) + 1 else 1
    ensures Repeats(last, run, faults + [f])
         == Repeats(last, run, faults)
            + if Streak(last, run, faults + [f]) % 0x1_0000_0000 == 3 then [Entry(f.time, f.faultType, 3)] else []
  {
    assert (faults + [f])[..|faults|] == faults;
  }

  // ---------- rapid escalation ----------

  /** A fault, and whether the VM was blocked right after it. */
  datatype Hit = Hit(time: u64, faultType: u32, blocked: bool)

  /** The clock reading that counts as the first fault, once this fault is in. */
  function Opening(first: u64, hit: Hit): u64 {
    if first == 0 then hit.time else first
  }

  predicate Fires(first: u64, hit: Hit) {
    hit.blocked && Opening(first, hit) != 0 && Sub64(hit.time, Opening(first, hit)) < 2_000_000
  }

  /** The reading of the first fault since the last alert, zero if there is none. */
  function Open(first: u64, hits: seq<Hit>): u64 {
    if hits == [] then first
    else
      var before, hit := Open(first, hits[..|hits| - 1]), hits[|hits| - 1];
      if Fires(before, hit) then 0 else Opening(before, hit)
  }

  function Rapids(first: u64, hits: seq<Hit>): seq<Entry> {
    if hits == [] then []
    else
      var init, hit := hits[..|hits| - 1], hits[|hits| - 1];
      var before := Open(first, init);
      Rapids(first, init)
      + if Fires(before, hit) then [Entry(hit.time, hit.faultType, Sub64(hit.time, Opening(before, hit)))] else []
  }

  lemma OneMoreHit(first: u64, hits: seq<Hit>, hit: Hit)
    ensures var before := Open(first, hits);
            && Open(first, hits + [hit]) == (if Fires(before, hit) then 0 else Opening(before, hit))
            && Rapids(first, hits + [hit])
               == Rapids(first, hits)
                  + if Fires(before, hit) then [Entry(hit.time, hit.faultType, Sub64(hit.time, Opening(before, hit)))] else []
  {
    assert (hits + [hit])[..|hits|] == hits;
  }

  /** A VM that is blocked within two seconds of its first fault is recorded then. */
  lemma {:induction false} EscalationFires(hits: seq<Hit>)
    requires hits != [] && hits[0].time != 0
    requires forall i :: 0 <= i < |hits| ==> hits[0].time <= hits[i].time < hits[0].time + 2_000_000
    requires forall i :: 0 <= i < |hits| ==> (hits[i].blocked <==> i == |hits| - 1)
    ensures var last := hits[|hits| - 1];
            Rapids(0, hits) == [Entry(last.time, last.faultType, last.time - hits[0].time)]
  {
    var init, last := hits[..|hits| - 1], hits[|hits| - 1];
    StillOpen(init);
    if init != [] { assert init[0] == hits[0]; }
    assert [] + [Entry(last.time, last.faultType, last.time - hits[0].time)]
        == [Entry(last.time, last.faultType, last.time - hits[0].time)];
  }

  lemma {:induction false} StillOpen(hits: seq<Hit>)
    requires forall i :: 0 <= i < |hits| ==> !hits[i].blocked && hits[i].time != 0
    ensures Rapids(0, hits) == [] && Open(0, hits) == if hits == [] then 0 else hits[0].time
  {
    if hits != [] { StillOpen(hits[..|hits| - 1]); }
  }

  /** Clearing the first fault is meant to keep later faults from alerting again. It
      does so exactly if the VM is no longer blocked (or the clock reads zero): the next
      fault is its own first fault. */
  lemma Refires(first: u64, hits: seq<Hit>, hit: Hit, next: Hit)
    requires Fires(Open(first, hits), hit)
    ensures Rapids(first, hits + [hit] + [next])
         == Rapids(first, hits + [hit])
            + if next.blocked && next.time != 0 then [Entry(next.time, next.faultType, 0)] else []
  {
    OneMoreHit(first, hits, hit);
    OneMoreHit(first, hits + [hit], next);
  }

  /** A first fault that is two seconds old stays the first fault: with a clock that does
      not go back, no escalation of this VM is ever recorded again. */
  lemma {:induction false} StaleForGood(first: u64, hits: seq<Hit>)
    requires first != 0 && forall i :: 0 <= i < |hits| ==> first + 2_000_000 <= hits[i].time
    ensures Rapids(first, hits) == [] && Open(first, hits) == first
  {
    if hits != [] { StaleForGood(first, hits[..|hits| - 1]); }
  }

  // ---------- lost trust ----------

  /** A level that a poll found. */
  datatype Look = Look(time: u64, level: Level)

  function LastLook(seen: Level, looks: seq<Look>): Level {
    if looks == [] then seen else looks[|looks| - 1].level
  }

  /** How little a level is trusted, as the records tell it. */
  function Code(level: Level): nat {
    match level
    case Unknown => 0
    case Trusted => 1
    case Degraded => 2
    case Quarantine => 3
    case Revoked => 4
  }

  /** The polls that found a known level worse than the poll before. */
  function Falls(seen: Level, looks: seq<Look>): seq<Entry> {
    if looks == [] then []
    else
      var init, cur := looks[..|looks| - 1], looks[|looks| - 1];
      var prev := LastLook(seen, init);
      Falls(seen, init)
      + if Code(cur.level) > Code(prev) && prev != Unknown
        then [Entry(cur.time, 0, 256 * Code(prev) + Code(cur.level))] else []
  }

  lemma OneMoreLook(seen: Level, looks: seq<Look>, cur: Look)
    ensures var prev := LastLook(seen, looks);
            && LastLook(seen, looks + [cur]) == cur.level
            && Falls(seen, looks + [cur])
               == Falls(seen, looks)
                  + if Code(cur.level) > Code(prev) && prev != Unknown
                    then [Entry(cur.time, 0, 256 * Code(prev) + Code(cur.level))] else []
  {
    assert (looks + [cur])[..|looks|] == looks;
  }
}
