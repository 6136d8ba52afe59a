/**
 The C client of c/testimony.c: its 256-byte read buffer, and the calls that read through
 it.  What `recv` will do is a list of events; the theorem of every method is about the
 byte stream that the events stand for, however it is cut into chunks.
 */
module CClient {
  import opened Wire
  import opened Framing
  import opened Handshake

  const BUF_SIZE := 256

  /** One return of recv: some bytes, EINTR, or another error.  When no event is left,
      the peer has closed the connection. */
  datatype Event = Data(chunk: seq<Byte>) | Interrupted | Failed

  /** recv returns at least one byte and no more than it is asked for. */
  predicate Chunked(es: seq<Event>) {
    forall k :: 0 <= k < |es| && es[k].Data? ==> 1 <= |es[k].chunk| <= BUF_SIZE
  }

  /** The bytes that arrive before the first error or the end. */
  function Arriving(es: seq<Event>): seq<Byte> {
    if es == [] || es[0].Failed? then []
    else if es[0].Interrupted? then Arriving(es[1..])
    else es[0].chunk + Arriving(es[1..])
  }

  /** The value built by shifting in one byte after the other. */
  function Accumulated(s: seq<Byte>): nat {
    if s == [] then 0 else Accumulated(s[..|s| - 1]) * 0x100 + s[|s| - 1]
  }

  lemma AccumulatedBound(s: seq<Byte>)
    requires |s| <= 3
    ensures Accumulated(s) < 0x100_0000
  {
    if s != [] {
      var t := s[..|s| - 1];
      if t != [] {
        var u := t[..|t| - 1];
        assert |u| <= 1 && (u != [] ==> u[..|u| - 1] == []);
        assert Accumulated(u) < 0x100 && Accumulated(t) < 0x1_0000;
      }
    }
  }

  lemma AccumulatedIsBe32(s: seq<Byte>)
    requires |s| == 4
    ensures Accumulated(s) == FromBe32(s)
  {
    var s3, s2, s1 := s[..3], s[..2], s[..1];
    assert s3[..2] == s2 && s2[..1] == s1 && s1[..0] == [];
    assert Accumulated(s1) == s[0];
    assert Accumulated(s2) == Accumulated(s1) * 0x100 + s[1];
    assert Accumulated(s3) == Accumulated(s2) * 0x100 + s[2];
  }

  lemma Split(a: seq<Byte>, b: seq<Byte>, n: nat)
    requires n <= |b|
    ensures (a + b[..n]) + b[n..] == a + b
  {
  }

  /** The loop of recv_be_32 over the four bytes. */
  method Combine(msg: seq<Byte>) returns (x: U32)
    requires |msg| == 4
    ensures x == FromBe32(msg)
  {
    x := 0;
    for i := 0 to 4
      invariant x == Accumulated(msg[..i])
    {
      assert msg[..i + 1][..i] == msg[..i];
      AccumulatedBound(msg[..i]);
      x := x * 0x100 + msg[i];
    }
    assert msg[..4] == msg;
    AccumulatedIsBe32(msg);
  }

  datatype Outcome =
    | Success
    | IoError            // recv or send failed, or the peer closed
    | UnsupportedVersion // EPROTONOSUPPORT
    | NoSizes            // EINVAL, a size is missing
    | AlreadyInitiated   // EINVAL
    | NoDescriptor       // EIO, no descriptor came with the byte
    | MapFailed
    | NotInitiated       // EINVAL
    | PollFailed
    | TimedOut           // zero without a block
    | BadBlockIndex      // EIO
    | CountNotZero       // EIO, the compare-and-swap failed
    | CountInvalid       // EINVAL, some packets had been returned already

  /** One return of poll: readable, timed out, EINTR, or another error.  When no event is
      left, the socket is readable. */
  datatype Polled = Readable | Silent | Signal | PollError

  /** What polling ends with, EINTR being passed over, and the events it leaves. */
  function Verdict(polls: seq<Polled>): (r: Outcome)
    ensures r == Success || r == TimedOut || r == PollFailed
  {
    if polls == [] then Success
    else match polls[0]
      case Signal => Verdict(polls[1..])
      case Readable => Success
      case Silent => TimedOut
      case PollError => PollFailed
  }

  function PollsLeft(polls: seq<Polled>): seq<Polled> {
    if polls == [] then [] else if polls[0].Signal? then PollsLeft(polls[1..]) else polls[1..]
  }

  predicate Among(polls: seq<Polled>, others: seq<Polled>) {
    |polls| <= |others| && forall k :: 0 <= k < |polls| ==> polls[k] in others
  }

  /** Polling ends with a timeout only after one, with an error only after one, and whatever
      comes first decides. */
  lemma {:induction false} VerdictOf(polls: seq<Polled>, k: nat)
    ensures Verdict(polls) == TimedOut ==> Silent in polls
    ensures Verdict(polls) == PollFailed ==> PollError in polls
    ensures k < |polls| && !polls[k].Signal? && (forall j :: 0 <= j < k ==> polls[j].Signal?) ==>
      Verdict(polls) == (match polls[k] case Readable => Success case Silent => TimedOut case _ => PollFailed)
    ensures (forall j :: 0 <= j < |polls| ==> polls[j].Signal?) ==> Verdict(polls) == Success
    ensures Among(PollsLeft(polls), polls) && (Verdict(polls) != Success ==> |PollsLeft(polls)| < |polls|)
  {
    if polls != [] && polls[0].Signal? {
      VerdictOf(polls[1..], if k > 0 then k - 1 else 0);
    }
  }

  /** What the system does during testimony_init: whether the two sends succeed, whether the
      byte that comes back carries a descriptor, and whether mmap succeeds. */
  datatype Setup = Setup(typeSent: bool, indexSent: bool, descriptor: bool, mapped: bool)

  /** What a connect returns and leaves behind, given what the stream stands for. */
  ghost predicate Connects(c: Connected, r: Outcome, p: Params, unread: seq<Byte>) {
    match c
    case Ok(q, rest) => r == Success && p == q && unread == rest
    case WrongVersion => r == UnsupportedVersion
    case Missing => r == NoSizes
    case _ => r == IoError
  }

  /** Where the loops of testimony_connect and testimony_get_block stand. */
  datatype Progress = GoingOn | Ended | CutOff

  class Client {
    var buf: array<Byte>
    var start: nat
    var limit: nat
    var events: seq<Event>
    var polls: seq<Polled>
    var conn: Params
    var counts: array<U32>
    var initiated: bool
    var sent: seq<Byte>    // everything sent to the server

    ghost predicate Valid()
      reads this
    {
      && buf.Length == BUF_SIZE && start <= limit <= BUF_SIZE && Chunked(events)
      && 0 <= conn.blockSize && 0 <= conn.numBlocks && counts as object != buf
      && (initiated ==> counts.Length == conn.numBlocks)
    }

    /** The stream as the caller sees it: buffered bytes, then what is still to arrive. */
    ghost function Unread(): seq<Byte>
      requires Valid()
      reads this, buf
    {
      buf[start..limit] + Arriving(events)
    }

    /** testimony_connect up to the connect(2). */
    constructor (events: seq<Event>, polls: seq<Polled>)
      requires Chunked(events)
      ensures Valid() && fresh(buf) && fresh(counts) && this.events == events && this.polls == polls
      ensures Unread() == Arriving(events) && start == limit
      ensures conn == Params(0, 0, 0) && !initiated && sent == []
    {
      buf := new Byte[BUF_SIZE];
      start, limit := 0, 0;
      this.events, this.polls := events, polls;
      conn := Params(0, 0, 0);
      counts := new U32[0];
      initiated := false;
      sent := [];
    }

    /** The inner loop of recv_t: refill the buffer when it is empty. */
    method Fill() returns (ok: bool)
      requires Valid()
      modifies this`start, this`limit, this`events, buf
      ensures Valid()
      ensures ok <==> old(Unread()) != []
      ensures ok ==> start < limit && Unread() == old(Unread())
    {
      while start >= limit
        invariant Valid() && Unread() == old(Unread())
        decreases |events|, limit - start + BUF_SIZE
      {
        start, limit := 0, 0;
        if events == [] {
          return false;
        }
        var e := events[0];
        events := events[1..];
        match e
        case Failed => return false;
        case Interrupted =>
        case Data(chunk) =>
          forall i | 0 <= i < |chunk| {
            buf[i] := chunk[i];
          }
          limit := |chunk|;
          assert buf[start..limit] == chunk;
      }
      return true;
    }

    /** Move n buffered bytes to out[k..]. */
    method CopyOut(out: array<Byte>, k: nat, n: nat)
      requires Valid() && out != buf && n <= limit - start && k + n <= out.Length
      modifies this`start, out
      ensures Valid() && start == old(start) + n
      ensures out[..k + n] == old(out[..k]) + old(Unread()[..n])
      ensures Unread() == old(Unread())[n..]
    {
      Memcpy(out, k, n);
      assert buf[start..limit] == buf[start..start + n] + buf[start + n..limit];
      start := start + n;
    }

    method Memcpy(out: array<Byte>, k: nat, n: nat)
      requires out != buf && start + n <= buf.Length && k + n <= out.Length
      modifies out
      ensures out[..k + n] == old(out[..k]) + buf[start..start + n]
    {
      ghost var had := out[..k];
      var i := 0;
      while i < n
        invariant i <= n && out[..k + i] == had + buf[start..start + i]
      {
        out[k + i] := buf[start + i];
        assert out[..k + i + 1] == out[..k + i] + [out[k + i]];
        i := i + 1;
        assert buf[start..start + i] == buf[start..start + i - 1] + [buf[start + i - 1]];
      }
    }

    /** One round of recv_t: refill the buffer if it is empty, and copy what is wanted of it. */
    method RecvSome(out: array<Byte>, k: nat, s: nat) returns (ok: bool, n: nat)
      requires Valid() && out != buf && k < s <= out.Length
      modifies this`start, this`limit, this`events, buf, out
      ensures Valid()
      ensures ok <==> old(Unread()) != []
      ensures ok ==> 1 <= n <= s - k && out[..k + n] + Unread() == old(out[..k]) + old(Unread())
    {
      n := 0;
      ok := Fill();
      if ok {
        ghost var had, rest := out[..k], Unread();
        n := if s - k < limit - start then s - k else limit - start;
        CopyOut(out, k, n);
        Split(had, rest, n);
      }
    }

    /** recv_t: out gets exactly the next s bytes of the stream, and the rest is unread; it
        fails if and only if fewer than s bytes arrive. */
    method RecvT(out: array<Byte>, s: nat) returns (ok: bool)
      requires Valid() && out != buf && s <= out.Length
      modifies this`start, this`limit, this`events, buf, out
      ensures Valid()
      ensures ok <==> |old(Unread())| >= s
      ensures ok ==> old(Unread()) == out[..s] + Unread()
    {
      var k := 0;
      ghost var all := Unread();
      while k < s
        invariant Valid() && k <= s && all == out[..k] + Unread()
      {
        var n;
        ok, n := RecvSome(out, k, s);
        if !ok {
          return;
        }
        k := k + n;
      }
      return true;
    }

    /** recv_be_32. */
    method RecvBe32() returns (ok: bool, x: U32)
      requires Valid()
      modifies this`start, this`limit, this`events, buf
      ensures Valid()
      ensures ok <==> |old(Unread())| >= 4
      ensures ok ==> x == Head(old(Unread())) && Unread() == old(Unread())[4..]
    {
      x := 0;
      var msg := new Byte[4];
      ok := RecvT(msg, 4);
      if ok {
        assert old(Unread())[..4] == msg[..4];
        x := Combine(msg[..4]);
      }
    }

    /** One round of discard_bytes. */
    method DiscardChunk(len: nat) returns (ok: bool, ghost skipped: seq<Byte>)
      requires Valid() && len <= BUF_SIZE
      modifies this`start, this`limit, this`events, buf
      ensures Valid()
      ensures ok <==> |old(Unread())| >= len
      ensures ok ==> |skipped| == len && old(Unread()) == skipped + Unread()
    {
      var val := new Byte[BUF_SIZE];
      ok := RecvT(val, len);
      skipped := val[..len];
    }

    /** discard_bytes: skip exactly n bytes. */
    method DiscardBytes(n: nat) returns (ok: bool)
      requires Valid()
      modifies this`start, this`limit, this`events, buf
      ensures Valid()
      ensures ok <==> |old(Unread())| >= n
      ensures ok ==> Unread() == old(Unread())[n..]
    {
      var left := n;
      ghost var all, gone: seq<Byte> := Unread(), [];
      while left > 0
        invariant Valid() && 0 <= left <= n && |gone| == n - left && all == gone + Unread()
      {
        var len := if left > BUF_SIZE then BUF_SIZE else left;
        ghost var skipped;
        ok, skipped := DiscardChunk(len);
        if !ok {
          return;
        }
        Associate(gone, skipped, Unread());
        gone := gone + skipped;
        left := left - len;
      }
      return true;
    }

    /** One round of the loop of testimony_connect. */
    method ReadTlv() returns (end: Progress)
      requires Valid() && !initiated
      modifies this`start, this`limit, this`events, this`conn, buf
      ensures Valid()
      ensures match end
        case GoingOn => CTlvs(old(Unread()), old(conn)) == CTlvs(Unread(), conn) && |Unread()| < |old(Unread())|
        case Ended => CTlvs(old(Unread()), old(conn)) == CFinish(conn, Unread())
        case CutOff => CTlvs(old(Unread()), old(conn)) == ShortRead
    {
      ghost var all := Unread();
      var ok, msg := RecvBe32();
      if !ok {
        return CutOff;
      }
      var typ, len := CType(msg), CLength(msg);
      if typ == WAITING_FOR_FANOUT_INDEX && len == 0 {
        return Ended;
      }
      if len == 4 {
        ok, msg := RecvBe32();
        if !ok {
          return CutOff;
        }
        assert all[4..][..4] == all[4..8] && all[4..][4..] == all[8..];
        conn := CSetSize(conn, typ, msg);
      } else {
        ok := DiscardBytes(len);
        if !ok {
          return CutOff;
        }
        assert all[4..][len..] == all[4 + len..];
      }
      return GoingOn;
    }

    /** The loop of testimony_connect and the check after it. */
    method ReadTlvs() returns (r: Outcome)
      requires Valid() && !initiated
      modifies this`start, this`limit, this`events, this`conn, buf
      ensures Valid()
      ensures Connects(CTlvs(old(Unread()), old(conn)), r, conn, Unread())
    {
      var end := GoingOn;
      ghost var goal := CTlvs(Unread(), conn);
      while end == GoingOn
        invariant Valid() && end != CutOff
        invariant goal == if end == GoingOn then CTlvs(Unread(), conn) else CFinish(conn, Unread())
        decreases if end == GoingOn then |Unread()| + 1 else 0
      {
        end := ReadTlv();
        if end == CutOff {
          return IoError;
        }
      }
      if conn.fanoutSize == 0 || conn.blockSize == 0 || conn.numBlocks == 0 {
        return NoSizes;
      }
      return Success;
    }

    /** testimony_connect after the connect(2): the version byte and the TLV loop. */
    method Connect() returns (r: Outcome)
      requires Valid() && !initiated && conn == Params(0, 0, 0)
      modifies this`start, this`limit, this`events, this`conn, buf
      ensures Valid()
      ensures Connects(CConnect(old(Unread())), r, conn, Unread())
    {
      ghost var all := Unread();
      var version := new Byte[1];
      var ok := RecvT(version, 1);
      if !ok {
        return IoError;
      }
      assert version[..1][0] == all[0] && Unread() == all[1..];
      if version[0] != VERSION {
        return UnsupportedVersion;
      }
      r := ReadTlvs();
    }

    /** recv_file_descriptor: one byte straight from the socket, past the buffer. */
    method RecvFd(descriptor: bool) returns (r: Outcome)
      requires Valid()
      modifies this`events
      ensures Valid()
      ensures r == if old(events) == [] || !old(events)[0].Data? then IoError
                   else if !descriptor then NoDescriptor else Success
      ensures r != IoError ==> Arriving(old(events)) != [] && Arriving(events) == Arriving(old(events))[1..]
    {
      if events == [] {
        return IoError;
      }
      var e := events[0];
      events := events[1..];
      match e
      case Data(chunk) =>
        if |chunk| > 1 {
          events := [Data(chunk[1..])] + events;
          assert events[1..] == old(events)[1..];
        }
        return if descriptor then Success else NoDescriptor;
      case _ => return IoError;
    }

    /** testimony_init: ask for a fanout index, take the descriptor, zero the counters. */
    method Init(idx: int, sys: Setup) returns (r: Outcome)
      requires Valid()
      modifies this`events, this`sent, this`counts, this`initiated
      ensures Valid() && initiated == (old(initiated) || r == Success)
      ensures r == if old(initiated) then AlreadyInitiated
                   else if !sys.typeSent || !sys.indexSent then IoError
                   else if old(events) == [] || !old(events)[0].Data? then IoError
                   else if !sys.descriptor then NoDescriptor
                   else if !sys.mapped then MapFailed else Success
      ensures sent == old(sent) + (if old(initiated) || !sys.typeSent then []
                                   else if !sys.indexSent then FanoutMsg(idx)[..4] else FanoutMsg(idx))
      ensures old(initiated) || !sys.typeSent || !sys.indexSent ==> events == old(events) && counts == old(counts)
      ensures r == NoDescriptor || r == MapFailed || r == Success ==>
        start == limit ==> old(Unread()) != [] && Unread() == old(Unread())[1..]
      ensures r == Success ==> fresh(counts) && forall i :: 0 <= i < counts.Length ==> counts[i] == 0
    {
      if initiated {
        return AlreadyInitiated;
      }
      if !sys.typeSent {
        return IoError;
      }
      sent := sent + Be32(ToTL(FANOUT_INDEX, 4));
      assert FanoutMsg(idx)[..4] == Be32(ToTL(FANOUT_INDEX, 4));
      if !sys.indexSent {
        return IoError;
      }
      sent := sent + Be32(Word(idx));
      r := RecvFd(sys.descriptor);
      if r != Success {
        return;
      }
      counts := new U32[conn.numBlocks](_ => 0);
      if !sys.mapped {
        return MapFailed;
      }
      initiated := true;
    }

    /** The poll of testimony_get_block, which is made only with a timeout and with nothing
        buffered; EINTR polls again. */
    method Wait(timeout: int) returns (r: Outcome)
      requires Valid()
      modifies this`polls
      ensures r == if timeout >= 0 && start == limit then Verdict(old(polls)) else Success
      ensures polls == if timeout >= 0 && start == limit then PollsLeft(old(polls)) else old(polls)
    {
      while timeout >= 0 && start == limit && polls != []
        invariant Verdict(polls) == Verdict(old(polls)) && PollsLeft(polls) == PollsLeft(old(polls))
        invariant timeout < 0 || start != limit ==> polls == old(polls)
        decreases |polls|
      {
        var e := polls[0];
        polls := polls[1..];
        match e
        case Readable => return Success;
        case Silent => return TimedOut;
        case PollError => return PollFailed;
        case Signal =>
      }
      return Success;
    }

    /** One round of the loop of testimony_get_block: an index, or a TLV that is skipped. */
    method ReadMessage(ghost n: nat) returns (end: Progress, x: U32)
      requires Valid()
      modifies this`start, this`limit, this`events, buf
      ensures Valid()
      ensures match end
        case GoingOn => CRead(old(Unread()), n) == CRead(Unread(), n) && |Unread()| < |old(Unread())|
        case Ended => CRead(old(Unread()), n) == CheckIndex(x, Unread(), n)
        case CutOff => CRead(old(Unread()), n).Short?
    {
      ReadsWord(Unread(), n);
      var ok;
      ok, x := RecvBe32();
      if !ok {
        return CutOff, x;
      }
      if CType(x) == BLOCK_INDEX {
        return Ended, x;
      }
      ok := DiscardBytes(CLength(x));
      end := if ok then GoingOn else CutOff;
    }

    /** The loop of testimony_get_block: skip TLVs up to a block index.  A timeout loses
        nothing: the next block of the stream is the same as before. */
    method NextIndex(timeout: int, ghost n: nat) returns (r: Outcome, x: U32)
      requires Valid()
      modifies this`start, this`limit, this`events, this`polls, buf
      ensures Valid() && Among(polls, old(polls))
      ensures match r
        case Success => CRead(old(Unread()), n) == CheckIndex(x, Unread(), n)
        case IoError => CRead(old(Unread()), n).Short?
        case TimedOut => CRead(Unread(), n) == CRead(old(Unread()), n)
        case PollFailed => CRead(Unread(), n) == CRead(old(Unread()), n)
        case _ => false
      ensures r == TimedOut ==> timeout >= 0 && Silent in old(polls) && |polls| < |old(polls)|
      ensures r == PollFailed ==> timeout >= 0 && PollError in old(polls)
      ensures timeout >= 0 && old(start == limit) && Verdict(old(polls)) != Success ==> r == Verdict(old(polls))
    {
      ghost var goal := CRead(Unread(), n);
      ghost var first := true;
      x := 0;
      while true
        invariant Valid() && Among(polls, old(polls)) && goal == CRead(Unread(), n)
        invariant if first then polls == old(polls) && start == old(start) && limit == old(limit)
                  else !(timeout >= 0 && old(start == limit) && Verdict(old(polls)) != Success)
        decreases |Unread()|
      {
        VerdictOf(polls, 0);
        r := Wait(timeout);
        if r != Success {
          return;
        }
        first := false;
        var end;
        end, x := ReadMessage(n);
        match end
        case Ended => return Success, x;
        case CutOff => return IoError, x;
        case GoingOn =>
      }
    }

    /** testimony_get_block; `pkts` gives num_pkts of a block's header.  It times out only
        after a poll that did, and always if that is what its first poll does. */
    method GetBlock(timeout: int, pkts: nat -> U32) returns (r: Outcome, block: U32)
      requires Valid()
      modifies this`start, this`limit, this`events, this`polls, buf, counts
      ensures Valid() && Among(polls, old(polls))
      ensures r == NotInitiated <==> !initiated
      ensures r == TimedOut || r == PollFailed ==> CRead(Unread(), conn.numBlocks) == CRead(old(Unread()), conn.numBlocks)
      ensures r == TimedOut ==> timeout >= 0 && Silent in old(polls) && |polls| < |old(polls)|
      ensures r == PollFailed ==> timeout >= 0 && PollError in old(polls)
      ensures initiated && timeout >= 0 && old(start == limit) && Verdict(old(polls)) != Success ==> r == Verdict(old(polls))
      ensures r == NotInitiated || r == TimedOut || r == PollFailed ||
        match CRead(old(Unread()), conn.numBlocks)
        case Short => r == IoError
        case OutOfRange(_, _) => r == BadBlockIndex
        case Block(i, rest) =>
          && r == (if old(counts[i]) == 0 then Success else CountNotZero) && Unread() == rest && block == i
          && counts[..] == old(counts[..])[i := if old(counts[i]) == 0 then pkts(i) else old(counts[i])]
        case WrongType(_) => false
      ensures r != Success && r != CountNotZero ==> counts[..] == old(counts[..])
    {
      if !initiated {
        return NotInitiated, 0;
      }
      r, block := NextIndex(timeout, conn.numBlocks);
      if r != Success {
        return;
      }
      if block >= conn.numBlocks {
        return BadBlockIndex, block;
      }
      if counts[block] != 0 {
        return CountNotZero, block;
      }
      counts[block] := pkts(block);
    }

    /** testimony_return_block of block i, when nobody else is at its counter; `ok` says
        whether the send succeeds. */
    method ReturnBlock(i: U32, pkts: nat -> U32, ok: bool) returns (r: Outcome)
      requires Valid() && initiated && i < counts.Length
      modifies this`sent, counts
      ensures Valid() && Unread() == old(Unread()) && counts[..] == old(counts[..])[i := 0]
      ensures r == if old(counts[i]) != 0 && old(counts[i]) != pkts(i) then CountInvalid
                   else if !ok then IoError else Success
      ensures sent == old(sent) + if r == Success then Be32(i) else []
    {
      var count := counts[i];
      counts[i] := 0;
      if count != 0 && count != pkts(i) {
        return CountInvalid;
      }
      if !ok {
        return IoError;
      }
      sent := sent + Be32(i);
      return Success;
    }
  }

  /** The rest of CRead once a word has been read. */
  function AfterWord(x: U32, rest: seq<Byte>, n: nat): Read {
    if CType(x) == BLOCK_INDEX then CheckIndex(x, rest, n)
    else if |rest| < CLength(x) then Short
    else CRead(rest[CLength(x)..], n)
  }

  lemma ReadsWord(s: seq<Byte>, n: nat)
    ensures CRead(s, n) == if |s| < 4 then Short else AfterWord(Head(s), s[4..], n)
  {
  }

  /** The server writes its hello and then waits for the fanout index, so the events up to
      then stand for the hello alone, in whatever chunks.  The client comes out with the
      server's sizes and an empty buffer. */
  method Greet(p: Params, hello: seq<Event>, polls: seq<Polled>) returns (t: Client)
    requires 0 < p.fanoutSize < TOP_BIT && 0 < p.blockSize < 0x1_0000_0000 && 0 < p.numBlocks < 0x1_0000_0000
    requires Chunked(hello) && Arriving(hello) == Hello(p)
    ensures fresh(t) && fresh(t.buf) && t.Valid() && t.conn == p && t.start == t.limit
    ensures !t.initiated && t.sent == [] && t.polls == polls
  {
    t := new Client(hello, polls);
    assert Hello(p) + [] == Hello(p);
    HandshakeAgreement(p, []);
    var r := t.Connect();
    assert t.Unread() == [];
    assert |t.buf[t.start..t.limit]| == t.limit - t.start;
  }

  /** After the handshake come the descriptor byte and the block stream; the direct read of
      the descriptor is aligned. */
  method Initiate(p: Params, idx: int, hello: seq<Event>, later: seq<Event>, polls: seq<Polled>, ghost blocks: seq<Byte>)
    returns (t: Client)
    requires 0 < p.fanoutSize < TOP_BIT && 0 < p.blockSize < 0x1_0000_0000 && 0 < p.numBlocks < 0x1_0000_0000
    requires Chunked(hello) && Arriving(hello) == Hello(p)
    requires Chunked(later) && later != [] && later[0].Data? && Arriving(later) == [0] + blocks
    ensures fresh(t) && fresh(t.buf) && fresh(t.counts) && t.Valid() && t.conn == p && t.sent == FanoutMsg(idx)
    ensures t.initiated && t.Unread() == blocks && NoneHeld(t.counts[..]) && t.polls == polls
  {
    t := Greet(p, hello, polls);
    t.events := later;
    assert t.Unread() == [0] + blocks;
    var r := t.Init(idx, Setup(true, true, true, true));
  }

  /** No block is with the application. */
  ghost predicate NoneHeld(counts: seq<U32>) {
    forall i :: 0 <= i < |counts| ==> counts[i] == 0
  }

  /** What getting and returning a block does to the blocks still to come. */
  ghost predicate Consumed(r: Outcome, block: U32, before: seq<U32>, after: seq<U32>) {
    match r
    case Success => before == [block] + after
    case TimedOut => before == after
    case PollFailed => true
    case _ => (r == IoError || r == BadBlockIndex) && before == []
  }

  /** Get a block and return it. */
  method GetAndReturn(t: Client, timeout: int, pkts: nat -> U32) returns (r: Outcome, block: U32)
    requires t.Valid() && t.initiated && NoneHeld(t.counts[..])
    modifies t`start, t`limit, t`events, t`polls, t`sent, t.buf, t.counts
    ensures t.Valid() && NoneHeld(t.counts[..])
    ensures Among(t.polls, old(t.polls)) && (r == TimedOut ==> |t.polls| < |old(t.polls)|)
    ensures r == PollFailed ==> timeout >= 0 && PollError in old(t.polls)
    ensures Consumed(r, block, CBlocks(old(t.Unread()), t.conn.numBlocks), CBlocks(t.Unread(), t.conn.numBlocks))
    ensures t.sent == old(t.sent) + if r == Success then Be32(block) else []
  {
    ghost var were := t.counts[..];
    r, block := t.GetBlock(timeout, pkts);
    if r == Success {
      r := t.ReturnBlock(block, pkts, true);
    }
    assert t.counts[..] == were;
  }

  /** An application that gets blocks and returns each of them, and asks again after a
      timeout: on every byte stream, however it is chunked and whatever poll does, it gets
      exactly the blocks that the stream stands for, and returns them in that order. */
  method Consume(t: Client, timeout: int, pkts: nat -> U32) returns (r: Outcome, blocks: seq<U32>)
    requires t.Valid() && t.initiated && NoneHeld(t.counts[..])
    modifies t`start, t`limit, t`events, t`polls, t`sent, t.buf, t.counts
    ensures t.Valid() && (r == IoError || r == BadBlockIndex || (r == PollFailed && timeout >= 0 && PollError in old(t.polls)))
    ensures r != PollFailed ==> blocks == CBlocks(old(t.Unread()), t.conn.numBlocks)
    ensures blocks <= CBlocks(old(t.Unread()), t.conn.numBlocks)
    ensures t.sent == old(t.sent) + Returns(blocks)
  {
    blocks := [];
    ghost var n: nat := t.conn.numBlocks;
    ghost var all := CBlocks(t.Unread(), n);
    while true
      invariant t.Valid() && NoneHeld(t.counts[..]) && all == blocks + CBlocks(t.Unread(), n) && Among(t.polls, old(t.polls))
      invariant t.sent == old(t.sent) + Returns(blocks)
      decreases |CBlocks(t.Unread(), n)|, |t.polls|
    {
      var block;
      r, block := GetAndReturn(t, timeout, pkts);
      if r != Success && r != TimedOut {
        return;
      }
      if r == Success {
        Associate(blocks, [block], CBlocks(t.Unread(), n));
        Associate(old(t.sent), Returns(blocks), Be32(block));
        ReturnsAppend(blocks, block);
        blocks := blocks + [block];
      }
    }
  }

  /** A whole session: unless poll fails, the client gets all the indexes of the server's
      messages, in order. */
  method Session(p: Params, idx: int, hello: seq<Event>, later: seq<Event>, polls: seq<Polled>, ghost ms: seq<Msg>,
                 timeout: int, pkts: nat -> U32)
    returns (t: Client, r: Outcome, blocks: seq<U32>)
    requires 0 < p.fanoutSize < TOP_BIT && 0 < p.blockSize < 0x1_0000_0000 && 0 < p.numBlocks < 0x1_0000_0000
    requires Chunked(hello) && Arriving(hello) == Hello(p)
    requires Chunked(later) && later != [] && later[0].Data? && Arriving(later) == [0] + EncodeAll(ms)
    requires AllFromServer(ms) && IndexesBelow(ms, p.numBlocks)
    ensures blocks <= Indexes(ms) && (blocks == Indexes(ms) || (r == PollFailed && timeout >= 0 && PollError in polls))
    ensures t.sent == FanoutMsg(idx) + Returns(blocks)
  {
    t := Initiate(p, idx, hello, later, polls, EncodeAll(ms));
    ClientsReadTheSameBlocks(ms, p.numBlocks);
    r, blocks := Consume(t, timeout, pkts);
  }
}
