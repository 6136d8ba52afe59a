/**
 Packet counting in the C client: concurrent calls of `testimony_return_packets` on one
 block.  A call subtracts its packets from the block's counter in one atomic operation;
 the call that finds exactly its own packets left goes on to `testimony_return_block`,
 which resets the counter in a second atomic operation and then sends the index.
 */
module PacketCount {
  import opened Wire

  datatype Pc =
    | Start      // before __sync_fetch_and_sub
    | Finished   // packets are left, nothing to send
    | Resetting  // before __sync_fetch_and_and in return_block
    | Sending    // before send_be_32
    | Returned   // the index has been sent
    | Unsent     // send_be_32 failed
    | Rejected   // EINVAL

  datatype Call = Call(packets: U32, pc: Pc)

  datatype State = State(count: U32, calls: seq<Call>, sent: nat)

  /** A step of a call; `ok` says whether its send succeeds, if it sends. */
  datatype Turn = Turn(call: nat, ok: bool)

  /** One step; `num` is num_pkts in the header of the block. */
  function Step(st: State, turn: Turn, num: U32): State
    requires turn.call < |st.calls|
  {
    var k := turn.call;
    var c := st.calls[k];
    match c.pc
    case Start =>
      State((st.count - c.packets) % 0x1_0000_0000,
            st.calls[k := c.(pc := if st.count == c.packets then Resetting
                                   else if st.count < c.packets then Rejected
                                   else Finished)],
            st.sent)
    case Resetting =>
      State(0, st.calls[k := c.(pc := if st.count != 0 && st.count != num then Rejected else Sending)], st.sent)
    case Sending =>
      if turn.ok then State(st.count, st.calls[k := c.(pc := Returned)], st.sent + 1)
      else st.(calls := st.calls[k := c.(pc := Unsent)])
    case _ => st
  }

  /** The state after the calls have run in the given interleaving. */
  function Run(st: State, order: seq<Turn>, num: U32): State
    requires forall k :: 0 <= k < |order| ==> order[k].call < |st.calls|
    decreases |order|
  {
    if order == [] then st else Run(Step(st, order[0], num), order[1..], num)
  }

  function Fresh(amounts: seq<U32>): seq<Call> {
    seq(|amounts|, k requires 0 <= k < |amounts| => Call(amounts[k], Start))
  }

  function Sum(amounts: seq<U32>): nat {
    if amounts == [] then 0 else Sum(amounts[..|amounts| - 1]) + amounts[|amounts| - 1]
  }

  predicate Complete(st: State) {
    forall k :: 0 <= k < |st.calls| ==> Ended(st.calls[k].pc)
  }

  /** The call has returned to its caller. */
  predicate Ended(pc: Pc) { pc.Finished? || pc.Returned? || pc.Unsent? || pc.Rejected? }

  predicate NoneRejected(cs: seq<Call>) {
    forall k :: 0 <= k < |cs| ==> !cs[k].pc.Rejected?
  }

  // ---- What every step keeps ------------------------------------------------

  /** Packets of the calls that have not subtracted yet. */
  function ToCome(cs: seq<Call>): nat {
    if cs == [] then 0
    else ToCome(cs[..|cs| - 1]) + (if cs[|cs| - 1].pc.Start? then cs[|cs| - 1].packets else 0)
  }

  /** Calls that have found the last packets. */
  function Closers(cs: seq<Call>): nat {
    if cs == [] then 0
    else Closers(cs[..|cs| - 1]) + (if Closer(cs[|cs| - 1]) then 1 else 0)
  }

  predicate Closer(c: Call) { c.pc.Resetting? || c.pc.Sending? || c.pc.Returned? || c.pc.Unsent? }

  function Senders(cs: seq<Call>): nat {
    if cs == [] then 0
    else Senders(cs[..|cs| - 1]) + (if cs[|cs| - 1].pc.Returned? then 1 else 0)
  }

  function Failures(cs: seq<Call>): nat {
    if cs == [] then 0
    else Failures(cs[..|cs| - 1]) + (if cs[|cs| - 1].pc.Unsent? then 1 else 0)
  }

  /** While no call has been rejected; `slack` is what the calls together leave of the
      block, and is negative if they return too much. */
  ghost predicate Inv(st: State, slack: int, num: U32) {
    && st.count == slack + ToCome(st.calls)
    && Closers(st.calls) == (if st.count == 0 && num > 0 then 1 else 0)
    && (num == 0 ==> st.count == 0)
    && st.sent == Senders(st.calls)
    && NoneRejected(st.calls)
    && forall k :: 0 <= k < |st.calls| ==> st.calls[k].packets > 0
  }

  lemma {:induction false} Update(cs: seq<Call>, k: nat, d: Call)
    requires k < |cs|
    ensures ToCome(cs[k := d]) == ToCome(cs) - (if cs[k].pc.Start? then cs[k].packets else 0) + (if d.pc.Start? then d.packets else 0)
    ensures Closers(cs[k := d]) == Closers(cs) - (if Closer(cs[k]) then 1 else 0) + (if Closer(d) then 1 else 0)
    ensures Senders(cs[k := d]) == Senders(cs) - (if cs[k].pc.Returned? then 1 else 0) + (if d.pc.Returned? then 1 else 0)
    ensures Failures(cs[k := d]) == Failures(cs) - (if cs[k].pc.Unsent? then 1 else 0) + (if d.pc.Unsent? then 1 else 0)
    ensures ToCome(cs) >= (if cs[k].pc.Start? then cs[k].packets else 0)
    ensures Closers(cs) >= (if Closer(cs[k]) then 1 else 0)
  {
    var m := |cs| - 1;
    if k == m {
      assert cs[k := d][..m] == cs[..m];
    } else {
      assert cs[k := d][..m] == cs[..m][k := d];
      Update(cs[..m], k, d);
    }
  }

  lemma StepInv(st: State, turn: Turn, num: U32, slack: int)
    requires Inv(st, slack, num) && turn.call < |st.calls|
    ensures var t := Step(st, turn, num);
      |t.calls| == |st.calls| && (NoneRejected(t.calls) || slack >= 0 ==> Inv(t, slack, num))
  {
    var k, t := turn.call, Step(st, turn, num);
    Update(st.calls, k, t.calls[k]);
    assert t.calls == st.calls[k := t.calls[k]];
    assert NoneRejected(t.calls) <==> !t.calls[k].pc.Rejected?;
  }

  /** A rejected call stays rejected. */
  lemma {:induction false} StaysRejected(st: State, order: seq<Turn>, num: U32)
    requires forall k :: 0 <= k < |order| ==> order[k].call < |st.calls|
    ensures |Run(st, order, num).calls| == |st.calls|
    ensures !NoneRejected(st.calls) ==> !NoneRejected(Run(st, order, num).calls)
    decreases |order|
  {
    if order != [] {
      var t := Step(st, order[0], num);
      if k :| 0 <= k < |st.calls| && st.calls[k].pc.Rejected? {
        assert t.calls[k].pc.Rejected?;
      }
      StaysRejected(t, order[1..], num);
    }
  }

  lemma {:induction false} RunInv(st: State, order: seq<Turn>, num: U32, slack: int)
    requires Inv(st, slack, num) && forall k :: 0 <= k < |order| ==> order[k].call < |st.calls|
    ensures var t := Run(st, order, num);
      |t.calls| == |st.calls| && (NoneRejected(t.calls) || slack >= 0 ==> Inv(t, slack, num))
    decreases |order|
  {
    if order != [] {
      var t := Step(st, order[0], num);
      StepInv(st, order[0], num, slack);
      StaysRejected(t, order[1..], num);
      if NoneRejected(t.calls) || slack >= 0 {
        RunInv(t, order[1..], num, slack);
      }
    }
  }

  lemma {:induction false} FreshTotals(amounts: seq<U32>)
    ensures ToCome(Fresh(amounts)) == Sum(amounts) && Closers(Fresh(amounts)) == 0 == Senders(Fresh(amounts))
  {
    if amounts != [] {
      var m := |amounts| - 1;
      FreshTotals(amounts[..m]);
      assert Fresh(amounts)[..m] == Fresh(amounts[..m]);
    }
  }

  lemma {:induction false} CompleteTotals(cs: seq<Call>)
    requires NoneRejected(cs) && forall k :: 0 <= k < |cs| ==> Ended(cs[k].pc)
    ensures ToCome(cs) == 0 && Closers(cs) == Senders(cs) + Failures(cs)
  {
    if cs != [] {
      CompleteTotals(cs[..|cs| - 1]);
    }
  }

  lemma {:induction false} SendersAreClosers(cs: seq<Call>)
    ensures Senders(cs) + Failures(cs) <= Closers(cs)
  {
    if cs != [] {
      SendersAreClosers(cs[..|cs| - 1]);
    }
  }

  lemma FreshInv(num: U32, amounts: seq<U32>)
    requires forall k :: 0 <= k < |amounts| ==> amounts[k] > 0
    ensures Inv(State(num, Fresh(amounts), 0), num - Sum(amounts), num)
  {
    FreshTotals(amounts);
  }

  /** Too many packets are noticed: when all calls of an interleaving have ended, some call
      has been rejected if and only if their amounts exceed the packets of the block. */
  lemma RejectedIffTooMany(num: U32, amounts: seq<U32>, order: seq<Turn>)
    requires forall k :: 0 <= k < |amounts| ==> amounts[k] > 0
    requires forall k :: 0 <= k < |order| ==> order[k].call < |amounts|
    ensures var st := Run(State(num, Fresh(amounts), 0), order, num);
      Complete(st) ==> (NoneRejected(st.calls) <==> Sum(amounts) <= num)
  {
    var st := Run(State(num, Fresh(amounts), 0), order, num);
    FreshInv(num, amounts);
    RunInv(State(num, Fresh(amounts), 0), order, num, num - Sum(amounts));
    if Complete(st) && NoneRejected(st.calls) {
      CompleteTotals(st.calls);
    }
  }

  /** Exactly one automatic return: for any interleaving of calls with positive amounts that
      do not exceed the packets of the block, and whatever sends fail, no call is rejected,
      at most one index is sent, and only when the counter is zero; once all calls have
      ended, exactly one send has been tried if the amounts cover a block with packets, and
      none otherwise. */
  lemma OneAutomaticReturn(num: U32, amounts: seq<U32>, order: seq<Turn>)
    requires Sum(amounts) <= num && forall k :: 0 <= k < |amounts| ==> amounts[k] > 0
    requires forall k :: 0 <= k < |order| ==> order[k].call < |amounts|
    ensures var st := Run(State(num, Fresh(amounts), 0), order, num);
      && NoneRejected(st.calls)
      && (forall k :: 0 <= k < |st.calls| && st.calls[k].pc.Sending? ==>
            st.count == 0 && st.sent == 0 == Failures(st.calls))
      && st.sent + Failures(st.calls) <= 1
      && (st.sent == 1 ==> st.count == 0 && Sum(amounts) == num)
      && (Complete(st) ==> st.sent + Failures(st.calls) == (if num > 0 && Sum(amounts) == num then 1 else 0))
  {
    var st := Run(State(num, Fresh(amounts), 0), order, num);
    FreshInv(num, amounts);
    RunInv(State(num, Fresh(amounts), 0), order, num, num - Sum(amounts));
    SendersAreClosers(st.calls);
    forall k | 0 <= k < |st.calls| && st.calls[k].pc.Sending?
      ensures st.count == 0 && st.sent == 0 == Failures(st.calls)
    {
      Update(st.calls, k, st.calls[k].(pc := Finished));
      SendersAreClosers(st.calls[k := st.calls[k].(pc := Finished)]);
    }
    if Complete(st) {
      CompleteTotals(st.calls);
    }
  }

  function StepsLeft(pc: Pc): nat {
    match pc
    case Start => 3
    case Resetting => 2
    case Sending => 1
    case _ => 0
  }

  function TurnsOf(order: seq<Turn>, k: nat): nat {
    if order == [] then 0 else (if order[0].call == k then 1 else 0) + TurnsOf(order[1..], k)
  }

  lemma TurnProgress(st: State, turn: Turn, num: U32, k: nat)
    requires turn.call < |st.calls| && k < |st.calls|
    ensures |Step(st, turn, num).calls| == |st.calls|
    ensures if turn.call == k && !Ended(st.calls[k].pc)
            then StepsLeft(Step(st, turn, num).calls[k].pc) < StepsLeft(st.calls[k].pc)
            else Step(st, turn, num).calls[k] == st.calls[k]
  {
  }

  /** No call waits for another: three turns end it, whatever the other calls do and whether
      or not its send succeeds. */
  lemma {:induction false} ThreeTurns(st: State, order: seq<Turn>, num: U32, k: nat)
    requires k < |st.calls| && TurnsOf(order, k) >= StepsLeft(st.calls[k].pc)
    requires forall j :: 0 <= j < |order| ==> order[j].call < |st.calls|
    ensures k < |Run(st, order, num).calls| && Ended(Run(st, order, num).calls[k].pc)
    decreases |order|
  {
    if order != [] {
      TurnProgress(st, order[0], num, k);
      ThreeTurns(Step(st, order[0], num), order[1..], num, k);
    }
  }

  /** Packets that the calls have subtracted so far. */
  function Subtracted(cs: seq<Call>): nat {
    if cs == [] then 0
    else Subtracted(cs[..|cs| - 1]) + (if cs[|cs| - 1].pc.Start? then 0 else cs[|cs| - 1].packets)
  }

  lemma {:induction false} SubtractedRest(cs: seq<Call>, amounts: seq<U32>)
    requires |cs| == |amounts| && forall k :: 0 <= k < |cs| ==> cs[k].packets == amounts[k]
    ensures Subtracted(cs) + ToCome(cs) == Sum(amounts)
  {
    if cs != [] {
      SubtractedRest(cs[..|cs| - 1], amounts[..|cs| - 1]);
    }
  }

  lemma {:induction false} SameAmounts(st: State, order: seq<Turn>, num: U32)
    requires forall k :: 0 <= k < |order| ==> order[k].call < |st.calls|
    ensures |Run(st, order, num).calls| == |st.calls|
    ensures forall k :: 0 <= k < |st.calls| ==> Run(st, order, num).calls[k].packets == st.calls[k].packets
    decreases |order|
  {
    if order != [] {
      SameAmounts(Step(st, order[0], num), order[1..], num);
    }
  }

  /** Mixed use is noticed: after any interleaving of return_packets of which none was
      rejected, a call of return_block is rejected if and only if some but not all of the
      packets have been returned; it empties the counter in any case. */
  lemma MixedUse(num: U32, amounts: seq<U32>, order: seq<Turn>, ok: bool)
    requires forall k :: 0 <= k < |amounts| ==> amounts[k] > 0
    requires forall k :: 0 <= k < |order| ==> order[k].call < |amounts|
    requires NoneRejected(Run(State(num, Fresh(amounts), 0), order, num).calls)
    ensures var st := Run(State(num, Fresh(amounts), 0), order, num); var m := |st.calls|;
      var t := Step(st.(calls := st.calls + [Call(0, Resetting)]), Turn(m, ok), num);
      && Subtracted(st.calls) <= num
      && t.calls[m].pc == (if 0 < Subtracted(st.calls) < num then Rejected else Sending)
      && t.count == 0 && t.sent == st.sent && t.calls[..m] == st.calls
  {
    var st := Run(State(num, Fresh(amounts), 0), order, num);
    FreshInv(num, amounts);
    RunInv(State(num, Fresh(amounts), 0), order, num, num - Sum(amounts));
    SameAmounts(State(num, Fresh(amounts), 0), order, num);
    SubtractedRest(st.calls, amounts);
  }

  // ---- From a pointer to a block ---------------------------------------------

  datatype Found = Block(i: nat) | NotOurs

  /** testimony_block_index, with size_t arithmetic. */
  function BlockIndex(ptr: nat, ring: nat, size: nat, n: nat): Found
    requires size > 0
  {
    var i := (ptr - ring) % 0x1_0000_0000_0000_0000 / size;
    if i >= n then NotOurs else Block(i)
  }

  /** For a ring that fits the address space, a pointer gives block i exactly when it points
      into block i of the ring, and none exactly when it points outside the ring. */
  lemma BlockOfPointer(ptr: nat, ring: nat, size: nat, n: nat, i: nat)
    requires size > 0 && i < n && ptr < 0x1_0000_0000_0000_0000
    requires ring + n * size <= 0x1_0000_0000_0000_0000
    ensures BlockIndex(ptr, ring, size, n) == Block(i) <==> ring + i * size <= ptr < ring + (i + 1) * size
    ensures BlockIndex(ptr, ring, size, n) == NotOurs <==> ptr < ring || ring + n * size <= ptr
  {
    AtLeast((ptr - ring) % 0x1_0000_0000_0000_0000, size, n);
    var off := (ptr - ring) % 0x1_0000_0000_0000_0000;
    Quotient(off, size, i);
    assert (i + 1) * size <= n * size;
    if ptr < ring {
      assert off == ptr - ring + 0x1_0000_0000_0000_0000;
    }
  }

  lemma AtLeast(x: nat, d: nat, q: nat)
    requires d > 0
    ensures x / d >= q <==> x >= q * d
  {
    var p := x / d;
    assert p * d <= x < (p + 1) * d;
    if p < q {
      assert (p + 1) * d <= q * d;
    } else {
      assert q * d <= p * d;
    }
  }

  lemma Quotient(x: nat, d: nat, q: nat)
    requires d > 0
    ensures x / d == q <==> q * d <= x < (q + 1) * d
  {
    var p := x / d;
    assert p * d <= x < (p + 1) * d;
    if p < q {
      assert (p + 1) * d <= q * d;
    } else if p > q {
      assert (q + 1) * d <= p * d;
    }
  }
}
