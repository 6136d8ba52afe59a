/** The Go client of go/testimony/testimony.go: Connect, Init, Block and Return. */
module GoClient {
  import opened Wire
  import opened Framing
  import opened Handshake

  datatype Outcome =
    | Success
    | ReadError
    | VersionMismatch
    | WrongDirection   // a type that is not server-to-client
    | BadSizeLength
    | MissingSizes
    | WriteError
    | NoDescriptor     // not one control message with one descriptor
    | MapFailed
    | IndexInvalid
    | NilPanic         // a returned block is returned again

  /** What a connect returns and leaves behind, given what the stream stands for. */
  ghost predicate Connects(c: Connected, r: Outcome, p: Params, unread: seq<Byte>) {
    match c
    case Ok(q, rest) => r == Success && p == q && unread == rest
    case WrongVersion => r == VersionMismatch
    case NotServerType => r == WrongDirection
    case BadLength => r == BadSizeLength
    case Missing => r == MissingSizes
    case ShortRead => r == ReadError
  }

  /** What one call for a block returns and leaves behind. */
  ghost predicate Reads(c: Read, r: Outcome, num: U32, unread: seq<Byte>) {
    match c
    case Block(i, rest) => r == Success && num == i && unread == rest
    case OutOfRange(_, rest) => r == IndexInvalid && unread == rest
    case WrongType(rest) => r == WrongDirection && unread == rest
    case Short => r == ReadError
  }

  /** What the system does during Init: whether the message goes out, what control data
      come with the byte, and whether mmap succeeds. */
  datatype Setup = Setup(sent: bool, control: Control, mapped: bool)

  /** The out-of-band data of a message: how many descriptors each control message carries,
      or something that is too long or cannot be parsed. */
  datatype Control = Garbled | Rights(fds: seq<nat>)

  class Conn {
    var input: seq<Byte>  // bytes of the server that are still to be read
    var sent: seq<Byte>   // bytes sent to the server
    var sizes: Params
    var closed: bool

    constructor (input: seq<Byte>)
      ensures this.input == input && sent == [] && sizes == Params(0, 0, 0) && !closed
    {
      this.input := input;
      sent := [];
      sizes := Params(0, 0, 0);
      closed := false;
    }

    /** io.ReadFull. */
    method ReadFull(n: nat) returns (ok: bool, data: seq<Byte>)
      modifies this`input
      ensures ok <==> |old(input)| >= n
      ensures ok ==> data == old(input)[..n] && input == old(input)[n..]
    {
      if |input| < n {
        input := [];
        return false, [];
      }
      data := input[..n];
      input := input[n..];
      return true, data;
    }

    /** The tlvLoop of Connect and the check after it. */
    method ReadTlvs() returns (r: Outcome)
      modifies this`input, this`sizes
      ensures Connects(GoTlvs(old(input), old(sizes)), r, sizes, input)
    {
      ghost var goal := GoTlvs(input, sizes);
      while true
        invariant goal == GoTlvs(input, sizes)
        decreases |input|
      {
        ghost var s := input;
        var ok, buf := ReadFull(4);
        if !ok {
          return ReadError;
        }
        var (typ, length) := TLFrom(FromBe32(buf));
        if TypeOf(typ) != SERVER_TO_CLIENT {
          return WrongDirection;
        }
        var val;
        ok, val := ReadFull(length);
        if !ok {
          return ReadError;
        }
        assert s[4..][..length] == s[4..4 + length] && s[4..][length..] == s[4 + length..];
        if typ == WAITING_FOR_FANOUT_INDEX {
          break;
        }
        if Sized(typ) {
          if length != 4 {
            return BadSizeLength;
          }
          sizes := SetSize(sizes, typ, FromBe32(val));
        }
      }
      if sizes.fanoutSize <= 0 || sizes.blockSize <= 0 || sizes.numBlocks <= 0 {
        return MissingSizes;
      }
      return Success;
    }

    /** Connect, after the dial. */
    method Connect() returns (r: Outcome)
      requires sizes == Params(0, 0, 0)
      modifies this`input, this`sizes
      ensures Connects(GoConnect(old(input)), r, sizes, input)
    {
      var ok, version := ReadFull(1);
      if !ok {
        return ReadError;
      }
      if version[0] != VERSION {
        return VersionMismatch;
      }
      r := ReadTlvs();
    }

    /** Init: send the fanout index, read the byte that carries the descriptor; on any error
        the connection is closed. */
    method Init(idx: int, sys: Setup) returns (r: Outcome)
      modifies this`input, this`sent, this`closed
      ensures r == if !sys.sent then WriteError
                   else if old(input) == [] then ReadError
                   else if sys.control.Garbled? || |sys.control.fds| != 1 || sys.control.fds[0] != 1 then NoDescriptor
                   else if !sys.mapped then MapFailed else Success
      ensures closed == (old(closed) || r != Success)
      ensures sent == old(sent) + if sys.sent then FanoutMsg(idx) else []
      ensures r == Success || r == MapFailed || r == NoDescriptor ==> input == old(input)[1..]
      ensures r == WriteError ==> input == old(input)
    {
      FanoutMsgIsSent(idx);
      if !sys.sent {
        closed := true;
        return WriteError;
      }
      sent := sent + SendUint32(FANOUT_INDEX, Word(idx)).bytes;
      var ok, data := ReadFull(1);
      if !ok {
        r := ReadError;
      } else if sys.control.Garbled? || |sys.control.fds| != 1 || sys.control.fds[0] != 1 {
        r := NoDescriptor;
      } else if !sys.mapped {
        r := MapFailed;
      } else {
        r := Success;
      }
      closed := closed || r != Success;
    }

    /** The readLoop of Block: skip TLVs up to a block index; and the check of the index. */
    method NextIndex() returns (r: Outcome, num: U32)
      requires 0 <= sizes.numBlocks
      modifies this`input
      ensures Reads(GoRead(old(input), sizes.numBlocks), r, num, input)
    {
      ghost var goal := GoRead(input, sizes.numBlocks);
      while true
        invariant goal == GoRead(input, sizes.numBlocks)
        decreases |input|
      {
        ghost var s := input;
        var ok, m := ReadFull(4);
        if !ok {
          return ReadError, 0;
        }
        num := FromBe32(m);
        var (typ, length) := TLFrom(num);
        if TypeOf(typ) == BLOCK_INDEX {
          break;
        } else if TypeOf(typ) == SERVER_TO_CLIENT {
          var val;
          ok, val := ReadFull(length);
          if !ok {
            return ReadError, 0;
          }
          assert s[4..][length..] == s[4 + length..];
        } else {
          return WrongDirection, 0;
        }
      }
      if num >= sizes.numBlocks {
        return IndexInvalid, num;
      }
      return Success, num;
    }

    /** Block: the next index of the stream, as a block of this connection. */
    method Block() returns (r: Outcome, block: Held?)
      requires 0 <= sizes.numBlocks
      modifies this`input
      ensures r == Success <==> block != null
      ensures block != null ==> fresh(block) && block.t == this
      ensures Reads(GoRead(old(input), sizes.numBlocks), r, if block != null then block.i else 0, input)
    {
      var num;
      r, num := NextIndex();
      block := null;
      if r == Success {
        block := new Held(this, num);
      }
    }
  }

  /** A block that Conn.Block has given out. */
  class Held {
    var t: Conn?
    var i: U32

    constructor (t: Conn, i: U32)
      ensures this.t == t && this.i == i
    {
      this.t, this.i := t, i;
    }

    /** Return: the index is sent as one framed message, and at most once; `ok` says whether
        the write succeeds, and if not the block can be returned again. */
    method Return(ok: bool) returns (r: Outcome)
      modifies this, (if t != null then {t} else {})`sent
      ensures r == if old(t) == null then NilPanic else if ok then Success else WriteError
      ensures old(t) != null ==> old(t).sent == old(t.sent) + (if ok then Encode(Index(old(i))) else [])
      ensures r == Success ==> t == null && i == 0
      ensures r != Success ==> t == old(t) && i == old(i)
    {
      if t == null {
        return NilPanic;
      }
      if !ok {
        return WriteError;
      }
      t.sent := t.sent + Be32(i);
      t, i := null, 0;
      return Success;
    }
  }

  /** What is still to come after one call. */
  lemma BlocksAfter(s: seq<Byte>, n: nat, r: Outcome, i: U32, unread: seq<Byte>)
    requires Reads(GoRead(s, n), r, i, unread)
    ensures GoBlocks(s, n) == if r == Success then [i] + GoBlocks(unread, n) else []
  {
  }

  /** Get a block and return it. */
  method GetAndReturn(t: Conn) returns (r: Outcome, i: U32)
    requires 0 <= t.sizes.numBlocks
    modifies t`input, t`sent
    ensures GoBlocks(old(t.input), t.sizes.numBlocks) ==
      if r == Success then [i] + GoBlocks(t.input, t.sizes.numBlocks) else []
    ensures t.sent == old(t.sent) + if r == Success then Encode(Index(i)) else []
  {
    i := 0;
    var block;
    r, block := t.Block();
    BlocksAfter(old(t.input), t.sizes.numBlocks, r, if block != null then block.i else 0, t.input);
    if block != null {
      i := block.i;
      r := block.Return(true);
    }
  }

  /** An application that gets blocks and returns each of them: on every byte stream it gets
      exactly the blocks that the stream stands for, and returns them in that order. */
  method Consume(t: Conn) returns (r: Outcome, blocks: seq<U32>)
    requires 0 <= t.sizes.numBlocks
    modifies t`input, t`sent
    ensures blocks == GoBlocks(old(t.input), t.sizes.numBlocks)
    ensures t.sent == old(t.sent) + Returns(blocks)
  {
    blocks := [];
    ghost var n: nat := t.sizes.numBlocks;
    ghost var all := GoBlocks(t.input, n);
    while true
      invariant all == blocks + GoBlocks(t.input, n) && t.sent == old(t.sent) + Returns(blocks)
      decreases |GoBlocks(t.input, n)|
    {
      var i;
      r, i := GetAndReturn(t);
      if r != Success {
        return;
      }
      Associate(blocks, [i], GoBlocks(t.input, n));
      Associate(old(t.sent), Returns(blocks), Be32(i));
      ReturnsAppend(blocks, i);
      blocks := blocks + [i];
    }
  }

  /** A whole session on the server's stream, hello, descriptor byte and blocks: the client
      gets the server's sizes and all the indexes, in order. */
  method Session(p: Params, idx: int, ms: seq<Msg>) returns (t: Conn, r: Outcome, blocks: seq<U32>)
    requires 0 < p.fanoutSize < 0x1_0000_0000 && 0 < p.blockSize < 0x1_0000_0000 && 0 < p.numBlocks < 0x1_0000_0000
    requires AllFromServer(ms) && IndexesBelow(ms, p.numBlocks)
    ensures t.sizes == p && blocks == Indexes(ms) && t.sent == FanoutMsg(idx) + Returns(blocks)
  {
    var tail := [0] + EncodeAll(ms);
    t := new Conn(Hello(p) + tail);
    HandshakeAgreement(p, tail);
    r := t.Connect();
    r := t.Init(idx, Setup(true, Rights([1]), true));
    ClientsReadTheSameBlocks(ms, p.numBlocks);
    r, blocks := Consume(t);
  }
}
