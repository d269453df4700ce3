/** Messages between VMs: one ring of eight 256-byte slots per destination. */
module Ipc {
  import opened Words
  import opened Octets

  const IPC_DEPTH: nat := 8
  const IPC_MSG_MAX: nat := 256

  datatype Message = Message(src: int, data: Bytes)

  /** A slot keeps whatever an earlier, longer message left behind `len`. */
  datatype Slot = Slot(data: Bytes, len: nat, src: int)

  predicate Carries(s: Slot, m: Message) {
    |s.data| == IPC_MSG_MAX && s.len == |m.data| <= IPC_MSG_MAX && s.data[..s.len] == m.data && s.src == m.src
  }

  function At(head: nat, k: nat): nat
    requires head < 8 && k <= 8
  {
    if head + k < 8 then head + k else head + k - 8
  }

  function Prefix(data: Bytes, max: nat): (r: Bytes)
    ensures r <= data && |r| <= max && (|r| == max || r == data)
  {
    if |data| < max then data else data[..max]
  }

  class Queue {
    const slots: array<Slot>
    var head: nat
    var tail: nat
    var count: nat
    /** Every message ever accepted, and how many of them were received. */
    ghost var accepted: seq<Message>
    ghost var taken: nat

    ghost predicate Valid()
      reads this, slots
    {
      && slots.Length == 8 && head < 8 && count <= 8 && tail == At(head, count)
      && taken + count == |accepted|
      && (forall i :: 0 <= i < 8 ==> |slots[i].data| == IPC_MSG_MAX)
      && (forall k :: 0 <= k < count ==> Carries(slots[At(head, k)], accepted[taken + k]))
    }

    constructor ()
      ensures Valid() && accepted == [] && taken == 0 && fresh(slots)
    {
      slots := new Slot[8](i => Slot(Zeros(IPC_MSG_MAX), 0, 0));
      head, tail, count, accepted, taken := 0, 0, 0, [], 0;
    }

    /** A full ring refuses; otherwise the message is the last of those accepted. */
    method Enqueue(src: int, data: Bytes) returns (e: Err)
      requires Valid() && 0 < |data| <= IPC_MSG_MAX
      modifies this`tail, this`count, this`accepted, slots
      ensures Valid()
      ensures e == if |old(accepted)| - taken >= IPC_DEPTH then Busy else Ok
      ensures e == Busy ==> accepted == old(accepted) && slots[..] == old(slots[..])
      ensures e == Ok ==> accepted == old(accepted) + [Message(src, data)]
    {
      if count >= IPC_DEPTH {
        return Busy;
      }
      var was := slots[tail];
      slots[tail] := Slot(data + was.data[|data|..], |data|, src);
      tail := (tail + 1) % IPC_DEPTH;
      count := count + 1;
      accepted := accepted + [Message(src, data)];
      e := Ok;
    }

    /** The oldest message that was not received yet, cut to the room there is. */
    method Dequeue(max: u64) returns (m: Option<Message>)
      requires Valid()
      modifies this`head, this`count, this`taken
      ensures Valid()
      ensures m.None? <==> old(taken) == |accepted|
      ensures m.None? ==> taken == old(taken)
      ensures m.Some? ==> taken == old(taken) + 1
                          && m.value == Message(accepted[old(taken)].src, Prefix(accepted[old(taken)].data, max))
    {
      if count == 0 {
        return None;
      }
      var s := slots[head];
      assert Carries(s, accepted[taken]) by { assert At(head, 0) == head; }
      var n := if s.len < max then s.len else max;
      assert s.data[..n] == Prefix(s.data[..s.len], max);
      m := Some(Message(s.src, s.data[..n]));
      Shift(head);
      head := (head + 1) % IPC_DEPTH;
      count := count - 1;
      taken := taken + 1;
    }
  }

  lemma Shift(head: nat)
    requires head < 8
    ensures (head + 1) % 8 == At(head, 1)
    ensures forall k :: 0 <= k < 8 ==> At(At(head, 1), k) == At(head, k + 1)
  {
  }

  // ---------- all queues together ----------

  /** What a VM has been sent, and how much of it was received. */
  datatype Box = Box(sent: seq<Message>, taken: nat)

  predicate Boxes(bs: seq<Box>) {
    |bs| == MAX_VMS && forall i :: 0 <= i < MAX_VMS ==> bs[i].taken <= |bs[i].sent| <= bs[i].taken + IPC_DEPTH
  }

  function SendErr(bs: seq<Box>, dst: int, data: Bytes): Err
    requires |bs| == MAX_VMS
  {
    if !(1 <= dst <= MAX_VMS) || !(0 < |data| <= IPC_MSG_MAX) then Inval
    else if |bs[dst - 1].sent| - bs[dst - 1].taken >= IPC_DEPTH then Busy else Ok
  }

  function Sent(bs: seq<Box>, src: int, dst: int, data: Bytes): seq<Box>
    requires |bs| == MAX_VMS
  {
    if SendErr(bs, dst, data) != Ok then bs
    else bs[dst - 1 := bs[dst - 1].(sent := bs[dst - 1].sent + [Message(src, data)])]
  }

  function Delivery(b: Box, max: nat): Option<Message> {
    if b.taken >= |b.sent| then None
    else Some(Message(b.sent[b.taken].src, Prefix(b.sent[b.taken].data, max)))
  }

  function Received(bs: seq<Box>, dst: int, max: nat): seq<Box>
    requires |bs| == MAX_VMS && 1 <= dst <= MAX_VMS
  {
    if Delivery(bs[dst - 1], max).None? then bs
    else bs[dst - 1 := bs[dst - 1].(taken := bs[dst - 1].taken + 1)]
  }

  datatype Op = Snd(src: int, dst: int, data: Bytes) | Rcv(dst: int, max: u64)

  /** A receiver is a VM; a sender may name any destination. */
  predicate ValidOp(op: Op) {
    op.Rcv? ==> 1 <= op.dst <= MAX_VMS
  }

  predicate ValidOps(ops: seq<Op>) {
    forall i :: 0 <= i < |ops| ==> ValidOp(ops[i])
  }

  function Step(bs: seq<Box>, op: Op): (r: seq<Box>)
    requires |bs| == MAX_VMS && ValidOp(op)
    ensures |r| == MAX_VMS
  {
    match op
    case Snd(src, dst, data) => Sent(bs, src, dst, data)
    case Rcv(dst, max) => Received(bs, dst, max)
  }

  function After(ops: seq<Op>): (bs: seq<Box>)
    requires ValidOps(ops)
    ensures |bs| == MAX_VMS
  {
    if ops == [] then [Box([], 0), Box([], 0), Box([], 0), Box([], 0)]
    else Step(After(ops[..|ops| - 1]), ops[|ops| - 1])
  }

  /** What this operation hands to VM `dst`. */
  function Handed(bs: seq<Box>, op: Op, dst: int): Option<Message>
    requires |bs| == MAX_VMS && 1 <= dst <= MAX_VMS
  {
    if op.Rcv? && op.dst == dst then Delivery(bs[dst - 1], op.max) else None
  }

  /** What VM `dst` got from its non-empty receives, with the room it gave each. */
  function Deliveries(ops: seq<Op>, dst: int): seq<(Message, nat)>
    requires 1 <= dst <= MAX_VMS && ValidOps(ops)
  {
    if ops == [] then []
    else
      var init, op := ops[..|ops| - 1], ops[|ops| - 1];
      var m := Handed(After(init), op, dst);
      if m.Some? then Deliveries(init, dst) + [(m.value, op.max)] else Deliveries(init, dst)
  }

  lemma StepBox(bs: seq<Box>, op: Op, dst: int)
    requires Boxes(bs) && ValidOp(op) && 1 <= dst <= MAX_VMS
    ensures Boxes(Step(bs, op))
    ensures var b, c, m := bs[dst - 1], Step(bs, op)[dst - 1], Handed(bs, op, dst);
            && b.sent <= c.sent
            && (m.None? ==> c.taken == b.taken)
            && (m.Some? ==> c.taken == b.taken + 1 <= |b.sent|
                            && m.value == Message(b.sent[b.taken].src, Prefix(b.sent[b.taken].data, op.max)))
  {
  }

  /** In every run, whatever is sent to whom and received by whom in between, the k-th
      non-empty receive of a VM gets the k-th message accepted for it, cut to the room
      it gave, and no more than eight messages wait. */
  lemma {:induction false} FirstInFirstOut(ops: seq<Op>, dst: int, k: int)
    requires 1 <= dst <= MAX_VMS && ValidOps(ops)
    ensures Boxes(After(ops))
    ensures var b, got := After(ops)[dst - 1], Deliveries(ops, dst);
            && |got| == b.taken
            && (0 <= k < |got| ==> got[k].0 == Message(b.sent[k].src, Prefix(b.sent[k].data, got[k].1)))
  {
    hide Step, Handed, Prefix;
    if ops != [] {
      FirstInFirstOut(ops[..|ops| - 1], dst, k);
      StepBox(After(ops[..|ops| - 1]), ops[|ops| - 1], dst);
    }
  }

  // ---------- what is accepted, told from the operations alone ----------

  /** A send to VM `dst` that is well formed. */
  predicate Offers(op: Op, dst: int) {
    op.Snd? && op.dst == dst && 0 < |op.data| <= 256
  }

  /** A send puts a message there unless eight wait already, a receive takes one away. */
  function WaitingNext(n: nat, op: Op, dst: int): nat {
    if Offers(op, dst) && n < 8 then n + 1
    else if op.Rcv? && op.dst == dst && n > 0 then n - 1
    else n
  }

  /** How many messages wait for VM `dst`. */
  function Waiting(ops: seq<Op>, dst: int): nat {
    if ops == [] then 0 else WaitingNext(Waiting(ops[..|ops| - 1], dst), ops[|ops| - 1], dst)
  }

  function AcceptedNext(ms: seq<Message>, n: nat, op: Op, dst: int): seq<Message> {
    if Offers(op, dst) && n < 8 then ms + [Message(op.src, op.data)] else ms
  }

  /** The messages of the sends that found fewer than eight waiting, in order. */
  function Accepted(ops: seq<Op>, dst: int): seq<Message> {
    if ops == [] then []
    else
      var init := ops[..|ops| - 1];
      AcceptedNext(Accepted(init, dst), Waiting(init, dst), ops[|ops| - 1], dst)
  }

  lemma AcceptedStep(bs: seq<Box>, op: Op, dst: int, n: nat)
    requires |bs| == MAX_VMS && ValidOp(op) && 1 <= dst <= MAX_VMS && |bs[dst - 1].sent| == bs[dst - 1].taken + n
    ensures var b, c := bs[dst - 1], Step(bs, op)[dst - 1];
            c.sent == AcceptedNext(b.sent, n, op, dst) && |c.sent| == c.taken + WaitingNext(n, op, dst)
  {
  }

  /** Exactly those are in the queue, and those not received yet are the ones that wait. */
  lemma {:induction false} AcceptedExactly(ops: seq<Op>, dst: int)
    requires 1 <= dst <= MAX_VMS && ValidOps(ops)
    ensures var b := After(ops)[dst - 1]; b.sent == Accepted(ops, dst) && |b.sent| == b.taken + Waiting(ops, dst)
  {
    hide Step, AcceptedNext, WaitingNext;
    if ops != [] {
      AcceptedExactly(ops[..|ops| - 1], dst);
      AcceptedStep(After(ops[..|ops| - 1]), ops[|ops| - 1], dst, Waiting(ops[..|ops| - 1], dst));
    }
  }

  function Receives(ops: seq<Op>, dst: int): nat {
    if ops == [] then 0
    else
      var op := ops[|ops| - 1];
      Receives(ops[..|ops| - 1], dst) + if op.Rcv? && op.dst == dst then 1 else 0
  }

  /** While enough messages wait, every receive takes one, whatever else happens. */
  lemma {:induction false} LaterTaken(ops: seq<Op>, later: seq<Op>, dst: int)
    requires 1 <= dst <= MAX_VMS && ValidOps(ops + later) && ValidOps(ops) && Receives(later, dst) <= Waiting(ops, dst)
    ensures var b, c := After(ops)[dst - 1], After(ops + later)[dst - 1];
            b.sent <= c.sent && c.taken == b.taken + Receives(later, dst)
  {
    AcceptedExactly(ops, dst);
    if later == [] {
      assert ops + later == ops;
    } else {
      var all, init := ops + later, later[..|later| - 1];
      assert all[..|all| - 1] == ops + init;
      LaterTaken(ops, init, dst);
    }
  }

  /** End to end: a message sent while w wait, w below eight, is what VM `dst` gets from
      its receive after the next w, from its sender and cut to the room there is. */
  lemma Arrives(ops: seq<Op>, src: int, dst: int, data: Bytes, later: seq<Op>, max: u64)
    requires 1 <= dst <= MAX_VMS && ValidOps(ops) && ValidOps(later) && 0 < |data| <= 256
    requires Receives(later, dst) == Waiting(ops, dst) < 8
    ensures var all := ops + [Snd(src, dst, data)] + later;
            && ValidOps(all)
            && Handed(After(all), Rcv(dst, max), dst) == Some(Message(src, if |data| < max then data else data[..max]))
  {
    var sent := ops + [Snd(src, dst, data)];
    assert sent[..|ops|] == ops;
    AcceptedExactly(ops, dst);
    LaterTaken(sent, later, dst);
  }

  /** One queue per VM; all of them exist from the start. */
  class Ipc {
    const queues: seq<Queue>

    ghost predicate Valid()
      reads this, queues, set q | q in queues :: q.slots
    {
      && |queues| == MAX_VMS
      && (forall i :: 0 <= i < MAX_VMS ==> queues[i].Valid())
      && (forall i, j :: 0 <= i < j < MAX_VMS ==> queues[i] != queues[j] && queues[i].slots != queues[j].slots)
    }

    constructor ()
      ensures Valid() && Traffic() == After([])
    {
      hide Queue.Valid;
      var a := new Queue();
      var b := new Queue();
      var c := new Queue();
      var d := new Queue();
      queues := [a, b, c, d];
    }

    ghost function Traffic(): (bs: seq<Box>)
      reads this, queues
      ensures |bs| == |queues|
    {
      seq(|queues|, i requires 0 <= i < |queues| reads this, queues => Box(queues[i].accepted, queues[i].taken))
    }

    method Send(src: int, dst: int, data: Bytes) returns (e: Err)
      requires Valid()
      modifies set i | 0 <= i < |queues| && i == dst - 1 :: queues[i]
      modifies set i | 0 <= i < |queues| && i == dst - 1 :: queues[i].slots
      ensures Valid() && e == SendErr(old(Traffic()), dst, data) && Traffic() == Sent(old(Traffic()), src, dst, data)
      ensures e == Ok ==>
                1 <= dst <= MAX_VMS && queues[dst - 1].accepted == old(queues[dst - 1].accepted) + [Message(src, data)]
    {
      if dst < 1 || dst > MAX_VMS {
        return Inval;
      }
      if |data| == 0 || |data| > IPC_MSG_MAX {
        return Inval;
      }
      e := queues[dst - 1].Enqueue(src, data);
    }

    method Receive(dst: int, max: u64) returns (m: Option<Message>)
      requires Valid() && 1 <= dst <= MAX_VMS
      modifies queues[dst - 1]
      ensures Valid() && m == Delivery(old(Traffic())[dst - 1], max) && Traffic() == Received(old(Traffic()), dst, max)
      ensures m.Some? <==> old(queues[dst - 1].taken) < |old(queues[dst - 1].accepted)|
    {
      m := queues[dst - 1].Dequeue(max);
    }
  }
}
