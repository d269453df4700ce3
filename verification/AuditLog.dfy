/** The monitor's audit log: a ring of 128 records whose total is a 32-bit word. */
module AuditLog {
  import opened Words
  import opened HvSpec

  /** After n appends: the last append that went into this slot of the ring. */
  function Latest(n: int, slot: int): int {
    n - 1 - (n - 1 - slot) % 128
  }

  /** How many records the log says it holds. */
  function Held(n: nat): nat {
    var count := n % 0x1_0000_0000;
    if count < 128 then count else 128
  }

  /** The append that reading entry i returns. */
  function ReadAt(n: nat, i: nat): Option<int> {
    var start := if n % 0x1_0000_0000 <= 128 then 0 else n % 128;
    if i >= Held(n) then None else Some(Latest(n, (start + i) % 128))
  }

  /** What an audit wants: the i-th oldest of the last 128 records. */
  function Wanted(n: nat, i: nat): Option<int> {
    var m := if n < 128 then n else 128;
    if i >= m then None else Some(n - m + i)
  }

  /** The log reads back as an audit wants it exactly when the 32-bit total has not
      just come round: fewer than 128 records ever, or a total that does not read
      as fewer than 128. */
  lemma AuditExact(n: nat)
    ensures (forall i: nat :: ReadAt(n, i) == Wanted(n, i)) <==> n < 128 || n % 0x1_0000_0000 >= 128
  {
    if n < 128 || n % 0x1_0000_0000 >= 128 {
      forall i: nat ensures ReadAt(n, i) == Wanted(n, i) { ReadsWanted(n, i); }
    } else {
      assert ReadAt(n, n % 0x1_0000_0000).None? && Wanted(n, n % 0x1_0000_0000).Some?;
    }
  }

  lemma ReadsWanted(n: nat, i: nat)
    requires n < 128 || n % 0x1_0000_0000 >= 128
    ensures ReadAt(n, i) == Wanted(n, i)
  {
    var count, head := n % 0x1_0000_0000, n % 128;
    if n < 128 {
      DivMod(n, 0x1_0000_0000, 0, n);
      if i < n {
        DivMod(i, 128, 0, i);
        DivMod(n - 1 - i, 128, 0, n - 1 - i);
      }
    } else if i < 128 {
      var q := n / 128;
      if head + i < 128 {
        DivMod(head + i, 128, 0, head + i);
        DivMod(n - 1 - (head + i), 128, q - 1, 127 - i);
      } else {
        DivMod(head + i, 128, 1, head + i - 128);
        DivMod(n - 1 - (head + i - 128), 128, q, 127 - i);
      }
      if count == 128 {
        HeadOfCount(n);
      }
    }
  }

  lemma HeadOfCount(n: nat)
    ensures n % 0x1_0000_0000 % 128 == n % 128
  {
    var q, r := n / 0x1_0000_0000, n % 0x1_0000_0000;
    DivMod(n, 128, q * 0x200_0000 + r / 128, r % 128);
  }

  class Ring {
    const log: array<Record>
    var head: nat
    var count: u32
    ghost var history: seq<Record>

    ghost predicate Valid()
      reads this, log
    {
      && log.Length == 128
      && head == |history| % 128 && count == |history| % 0x1_0000_0000
      && forall k :: 0 <= k < |history| && k >= |history| - 128 ==> log[k % 128] == history[k]
    }

    constructor ()
      ensures Valid() && history == [] && fresh(log)
    {
      log := new Record[128](i => Record(0, 0, EvFault, Info, 0, 0, Unknown));
      head, count, history := 0, 0, [];
    }

    method Clear()
      requires Valid()
      modifies this, log
      ensures Valid() && history == []
    {
      head, count, history := 0, 0, [];
      forall i | 0 <= i < log.Length {
        log[i] := Record(0, 0, EvFault, Info, 0, 0, Unknown);
      }
    }

    method Append(r: Record)
      requires Valid()
      modifies this, log
      ensures Valid() && history == old(history) + [r]
    {
      ghost var n := |history|;
      log[head] := r;
      head := (head + 1) % 128;
      count := Inc32(count);
      history := history + [r];
      NextHead(n);
      forall k | 0 <= k < |history| && k >= |history| - 128 ensures log[k % 128] == history[k] {
        if k < n { SlotsDiffer(n, k); }
      }
    }

    method Count() returns (c: nat)
      requires Valid()
      ensures c == Held(|history|)
    {
      c := if count < 128 then count else 128;
    }

    method At(i: u32) returns (r: Option<Record>)
      requires Valid()
      ensures r == match ReadAt(|history|, i)
                   case None => None
                   case Some(k) => if 0 <= k < |history| then Some(history[k]) else None
      ensures |history| < 128 || |history| % 0x1_0000_0000 >= 128 ==>
                r == match Wanted(|history|, i) case None => None case Some(k) => Some(history[k])
      ensures r.None? <==> i >= Held(|history|)
    {
      var n := Count();
      if i >= n {
        AuditExact(|history|);
        return None;
      }
      var start := if count <= 128 then 0 else head;
      var idx := (start + i) % 128;
      r := Some(log[idx]);
      LatestInRing(|history|, idx);
      AuditExact(|history|);
    }
  }

  lemma NextHead(n: nat)
    ensures (n % 128 + 1) % 128 == (n + 1) % 128
    ensures (n % 0x1_0000_0000 + 1) % 0x1_0000_0000 == (n + 1) % 0x1_0000_0000
  {
    var q, r := n / 128, n % 128;
    DivMod(n + 1, 128, q + (r + 1) / 128, (r + 1) % 128);
    var p, s := n / 0x1_0000_0000, n % 0x1_0000_0000;
    DivMod(n + 1, 0x1_0000_0000, p + (s + 1) / 0x1_0000_0000, (s + 1) % 0x1_0000_0000);
  }

  lemma SlotsDiffer(n: nat, k: nat)
    requires n - 127 <= k < n
    ensures k % 128 != n % 128
  {
    var q, r := k / 128, k % 128;
    if r == n % 128 {
      DivMod(n - k, 128, n / 128 - q, 0);
      DivMod(n - k, 128, 0, n - k);
      assert false;
    }
  }

  lemma LatestInRing(n: nat, slot: int)
    requires 0 <= slot < 128 && (n >= 128 || slot < n)
    ensures 0 <= Latest(n, slot) < n && Latest(n, slot) >= n - 128 && Latest(n, slot) % 128 == slot
  {
    var q, r := (n - 1 - slot) / 128, (n - 1 - slot) % 128;
    DivMod(n - 1 - r, 128, q, slot);
  }
}
