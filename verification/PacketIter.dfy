/**
 Iteration over the packets of a block, in C (`testimony_iter_next`) and in Go
 (`Block.Next`).  A packet is the offset of its header in the block.
 */
module PacketIter {

  /** What the iterators read from a block: number of packets, offset of the first one,
      and tp_next_offset and tp_mac of the header at an offset. */
  datatype Packets = Packets(num: nat, first: nat, next: nat -> nat, mac: nat -> nat)

  /** The offset of packet k. */
  function Nth(p: Packets, k: nat): nat {
    if k == 0 then p.first else Nth(p, k - 1) + p.next(Nth(p, k - 1))
  }

  datatype Found = Packet(offset: nat) | End | Panic

  /** What an iterator should give on call number k. */
  function Wanted(p: Packets, k: nat): Found {
    if k < p.num then Packet(Nth(p, k)) else End
  }

  // ---- C ---------------------------------------------------------------------

  datatype Pointer = Null | To(offset: nat)

  class CIter {
    const block: Packets
    var pkt: Pointer
    var left: nat
    ghost var calls: nat  // successful calls so far

    /** After some successful calls, the last packet is the current one. */
    ghost predicate Valid()
      reads this
    {
      && left + calls == block.num
      && pkt == if calls == 0 then Null else To(Nth(block, calls - 1))
    }

    /** testimony_iter_reset. */
    constructor (block: Packets)
      ensures Valid() && calls == 0 && this.block == block
    {
      this.block := block;
      pkt, left, calls := Null, block.num, 0;
    }

    /** testimony_iter_next: the packets in order, then the end for ever. */
    method Next() returns (r: Found)
      requires Valid()
      modifies this
      ensures Valid() && r == Wanted(block, old(calls))
      ensures calls == old(calls) + (if r.Packet? then 1 else 0)
    {
      if left == 0 {
        return End;
      }
      left := left - 1;
      match pkt {
        case To(offset) => pkt := To(offset + block.next(offset));
        case Null => pkt := To(block.first);
      }
      calls := calls + 1;
      return Packet(pkt.offset);
    }
  }

  // ---- Go --------------------------------------------------------------------

  datatype GoState = GoState(offset: nat, left: int, pkt: Pointer)

  /** One call of Next; a nil packet is dereferenced when a call follows the end of an
      empty block. */
  function GoNext(p: Packets, st: GoState): (GoState, Found) {
    if st.offset != 0 && st.pkt.Null? then (st, Panic)
    else
      var (offset, left) :=
        if st.offset == 0 then (p.first, p.num) else (st.offset + p.next(st.pkt.offset), st.left);
      if left <= 0 then (st.(offset := offset, left := left), End)
      else (GoState(offset, left - 1, To(offset)), Packet(offset))
  }

  /** The iterator as an object. */
  class GoBlock {
    const block: Packets
    var offset: nat
    var left: int
    var pkt: Pointer

    ghost function View(): GoState
      reads this
    {
      GoState(offset, left, pkt)
    }

    constructor (block: Packets)
      ensures this.block == block && View() == GoState(0, 0, Null)
    {
      this.block := block;
      offset, left, pkt := 0, 0, Null;
    }

    method Next() returns (r: Found)
      modifies this
      ensures (View(), r) == GoNext(block, old(View()))
    {
      if offset == 0 {
        left := block.num;
        offset := block.first;
      } else {
        if pkt.Null? {
          return Panic;
        }
        offset := offset + block.next(pkt.offset);
      }
      if left <= 0 {
        return End;
      }
      left := left - 1;
      pkt := To(offset);
      return Packet(offset);
    }
  }

  /** The iterator after k calls, and what call number k gives. */
  function GoAfter(p: Packets, k: nat): GoState {
    if k == 0 then GoState(0, 0, Null) else GoNext(p, GoAfter(p, k - 1)).0
  }

  function GoCall(p: Packets, k: nat): Found { GoNext(p, GoAfter(p, k)).1 }

  lemma {:induction false} NthPositive(p: Packets, k: nat)
    requires p.first > 0
    ensures Nth(p, k) > 0
  {
    if k > 0 {
      NthPositive(p, k - 1);
    }
  }

  lemma {:induction false} GoFollows(p: Packets, k: nat)
    requires p.first > 0 && 0 < k <= p.num
    ensures GoAfter(p, k) == GoState(Nth(p, k - 1), p.num - k, To(Nth(p, k - 1)))
    ensures GoCall(p, k - 1) == Packet(Nth(p, k - 1))
  {
    if k > 1 {
      GoFollows(p, k - 1);
      NthPositive(p, k - 2);
    }
  }

  /** With the first packet at offset zero the iterator starts again on every call. */
  lemma {:induction false} GoRestarts(p: Packets, k: nat)
    requires p.first == 0 && p.num > 0
    ensures GoAfter(p, k).offset == 0 && GoCall(p, k) == Packet(0)
  {
    if k > 0 {
      GoRestarts(p, k - 1);
    }
  }

  /** After the last packet every call gives the end. */
  lemma {:induction false} GoEnds(p: Packets, k: nat)
    requires p.first > 0 && 0 < p.num <= k
    ensures GoAfter(p, k).offset > 0 && GoAfter(p, k).left == 0 && GoAfter(p, k).pkt.To?
    ensures GoCall(p, k) == End
  {
    if k == p.num {
      GoFollows(p, k);
      NthPositive(p, k - 1);
    } else {
      GoEnds(p, k - 1);
    }
  }

  /** An empty block whose header gives offset zero is empty on every call. */
  lemma {:induction false} GoEmpty(p: Packets, k: nat)
    requires p.first == 0 == p.num
    ensures GoAfter(p, k) == GoState(0, 0, Null) && GoCall(p, k) == End
  {
    if k > 0 {
      GoEmpty(p, k - 1);
    }
  }

  /** An empty block with another offset ends once, and every later call dereferences nil. */
  lemma {:induction false} GoPanics(p: Packets, k: nat)
    requires p.first > 0 && p.num == 0
    ensures k > 0 ==> GoAfter(p, k) == GoState(p.first, 0, Null)
    ensures GoCall(p, k) == if k == 0 then End else Panic
  {
    if k > 0 {
      GoPanics(p, k - 1);
    }
  }

  lemma GoWanted(p: Packets, k: nat)
    requires p.first > 0 <==> p.num > 0
    ensures GoCall(p, k) == Wanted(p, k)
  {
    if p.num == 0 {
      GoEmpty(p, k);
    } else if k < p.num {
      GoFollows(p, k + 1);
    } else {
      GoEnds(p, k);
    }
  }

  /** On every call, for ever, the Go iterator gives what the C iterator gives, if and only
      if offset_to_first_pkt is zero exactly for an empty block. */
  lemma GoIteratesLikeC(p: Packets)
    ensures (forall k: nat :: GoCall(p, k) == Wanted(p, k)) <==> (p.first > 0 <==> p.num > 0)
  {
    if p.first > 0 <==> p.num > 0 {
      forall k: nat ensures GoCall(p, k) == Wanted(p, k) {
        GoWanted(p, k);
      }
    } else if p.first > 0 {
      GoPanics(p, 1);
      assert GoCall(p, 1) != Wanted(p, 1);
    } else {
      GoRestarts(p, p.num);
      assert GoCall(p, p.num) != Wanted(p, p.num);
    }
  }

  /** Up to and including the first end, it does so if and only if the first packet is not
      at offset zero, or there is none. */
  lemma GoFirstPassLikeC(p: Packets)
    ensures (forall k: nat :: k <= p.num ==> GoCall(p, k) == Wanted(p, k)) <==> p.first > 0 || p.num == 0
  {
    if p.num > 0 && p.first == 0 {
      GoRestarts(p, p.num);
      assert GoCall(p, p.num) != Wanted(p, p.num);
    } else {
      forall k: nat | k <= p.num ensures GoCall(p, k) == Wanted(p, k) {
        if p.num == 0 && p.first > 0 {
          GoPanics(p, k);
        } else {
          GoWanted(p, k);
        }
      }
    }
  }

  /** Some call stops the program if and only if the block is empty and its header gives an
      offset other than zero; then the first call gives the end, and the second stops. */
  lemma EmptyBlockPanics(p: Packets)
    ensures (exists k: nat :: GoCall(p, k).Panic?) <==> p.first > 0 && p.num == 0
    ensures p.first > 0 && p.num == 0 ==> GoCall(p, 0) == End && GoCall(p, 1) == Panic
  {
    if p.first > 0 && p.num == 0 {
      GoPanics(p, 0);
      GoPanics(p, 1);
    } else {
      forall k: nat ensures !GoCall(p, k).Panic? {
        if p.first > 0 <==> p.num > 0 {
          GoWanted(p, k);
        } else {
          GoRestarts(p, k);
        }
      }
    }
  }

  /** PacketData starts at the current offset plus tp_mac of the current header. */
  function DataStart(p: Packets, st: GoState): nat
    requires st.pkt.To?
  {
    st.offset + p.mac(st.pkt.offset)
  }

  /** After each packet the data are those of that packet; after the end they are those of
      the last packet if and only if its tp_next_offset is zero. */
  lemma DataOfPacket(p: Packets, k: nat)
    requires p.first > 0 && 0 < k <= p.num
    ensures GoAfter(p, k).pkt.To? && DataStart(p, GoAfter(p, k)) == Nth(p, k - 1) + p.mac(Nth(p, k - 1))
    ensures k == p.num ==>
      && GoAfter(p, k + 1).pkt.To?
      && (DataStart(p, GoAfter(p, k + 1)) == DataStart(p, GoAfter(p, k)) <==> p.next(Nth(p, k - 1)) == 0)
  {
    GoFollows(p, k);
    NthPositive(p, k - 1);
  }
}
