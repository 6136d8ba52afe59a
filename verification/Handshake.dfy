/**
 The handshake: the messages of `Testimony.handle`, and what `Connect` of the Go client
 and `testimony_connect` of the C client make of them.
 */
module Handshake {
  import opened Wire
  import opened Framing

  const VERSION: Byte := 2

  datatype Params = Params(fanoutSize: int, blockSize: int, numBlocks: int)

  /** How a connect ends, and what it leaves unread. */
  datatype Connected =
    | Ok(p: Params, rest: seq<Byte>)
    | WrongVersion | NotServerType | BadLength | Missing | ShortRead

  // ---- The Go client ----------------------------------------------------------

  function GoFinish(p: Params, rest: seq<Byte>): Connected {
    if p.fanoutSize <= 0 || p.blockSize <= 0 || p.numBlocks <= 0 then Missing else Ok(p, rest)
  }

  predicate Sized(typ: U16) { typ == FANOUT_SIZE || typ == BLOCK_SIZE || typ == NUM_BLOCKS }

  /** Store the value of a size. */
  function SetSize(p: Params, typ: U16, v: int): Params {
    if typ == FANOUT_SIZE then p.(fanoutSize := v)
    else if typ == BLOCK_SIZE then p.(blockSize := v)
    else if typ == NUM_BLOCKS then p.(numBlocks := v)
    else p
  }

  /** The TLV loop of Connect. */
  function GoTlvs(s: seq<Byte>, p: Params): Connected
    decreases |s|
  {
    if |s| < 4 then ShortRead
    else
      var (typ, length) := TLFrom(Head(s));
      if TypeOf(typ) != SERVER_TO_CLIENT then NotServerType
      else if |s| < 4 + length then ShortRead
      else
        var val, rest := s[4..4 + length], s[4 + length..];
        if typ == WAITING_FOR_FANOUT_INDEX then GoFinish(p, rest)
        else if Sized(typ) && length != 4 then BadLength
        else if Sized(typ) then GoTlvs(rest, SetSize(p, typ, FromBe32(val)))
        else GoTlvs(rest, p)
  }

  function GoConnect(s: seq<Byte>): Connected {
    if s == [] then ShortRead
    else if s[0] != VERSION then WrongVersion
    else GoTlvs(s[1..], Params(0, 0, 0))
  }

  // ---- The C client -------------------------------------------------------------

  /** A 32-bit word stored in an int. */
  function ToInt32(x: U32): int { if x < TOP_BIT then x else x - 0x1_0000_0000 }

  function CFinish(p: Params, rest: seq<Byte>): Connected {
    if p.fanoutSize == 0 || p.blockSize == 0 || p.numBlocks == 0 then Missing else Ok(p, rest)
  }

  /** Only the fanout size is an int; the other two are size_t. */
  function CSetSize(p: Params, typ: U16, v: U32): Params {
    SetSize(p, typ, if typ == FANOUT_SIZE then ToInt32(v) else v)
  }

  /** The loop of testimony_connect. */
  function CTlvs(s: seq<Byte>, p: Params): Connected
    decreases |s|
  {
    if |s| < 4 then ShortRead
    else
      var typ, length := CType(Head(s)), CLength(Head(s));
      if typ == WAITING_FOR_FANOUT_INDEX && length == 0 then CFinish(p, s[4..])
      else if |s| < 4 + length then ShortRead
      else if length == 4 then CTlvs(s[8..], CSetSize(p, typ, FromBe32(s[4..8])))
      else CTlvs(s[4 + length..], p)
  }

  function CConnect(s: seq<Byte>): Connected {
    if s == [] then ShortRead
    else if s[0] != VERSION then WrongVersion
    else CTlvs(s[1..], Params(0, 0, 0))
  }

  // ---- Agreement on every stream ----------------------------------------------------

  /** Sizes as the Go client holds them, the way the C client holds them. */
  function CView(p: Params): Params
    requires 0 <= p.fanoutSize < 0x1_0000_0000
  {
    p.(fanoutSize := ToInt32(p.fanoutSize))
  }

  predicate Words(p: Params) {
    0 <= p.fanoutSize < 0x1_0000_0000 && 0 <= p.blockSize < 0x1_0000_0000 && 0 <= p.numBlocks < 0x1_0000_0000
  }

  /** The TLV that ends the loop of the Go client carries no value. */
  predicate EmptyEnd(s: seq<Byte>)
    decreases |s|
  {
    |s| >= 4 &&
    var (typ, length) := TLFrom(Head(s));
    if typ == WAITING_FOR_FANOUT_INDEX then length == 0
    else |s| >= 4 + length && EmptyEnd(s[4 + length..])
  }

  /** Whatever stream the Go client accepts, the C client accepts too, with the same sizes
      and the same bytes left over, provided that the last TLV is empty. */
  lemma {:induction false} AcceptedByBoth(s: seq<Byte>, p: Params)
    requires Words(p) && GoTlvs(s, p).Ok? && EmptyEnd(s)
    ensures Words(GoTlvs(s, p).p)
    ensures CTlvs(s, CView(p)) == Ok(CView(GoTlvs(s, p).p), GoTlvs(s, p).rest)
    decreases |s|
  {
    var (typ, length) := TLFrom(Head(s));
    SplitsAgree(Head(s));
    if typ == WAITING_FOR_FANOUT_INDEX {
      assert s[4 + length..] == s[4..];
    } else if Sized(typ) {
      AcceptedByBoth(s[8..], SetSize(p, typ, FromBe32(s[4..8])));
    } else {
      AcceptedByBoth(s[4 + length..], p);
    }
  }

  // ---- Exactly what is accepted -------------------------------------------------------

  /** The version byte decides first. */
  lemma VersionFirst(s: seq<Byte>)
    ensures GoConnect(s) == WrongVersion <==> s != [] && s[0] != 2
    ensures CConnect(s) == WrongVersion <==> s != [] && s[0] != 2
    ensures s == [] ==> GoConnect(s) == ShortRead == CConnect(s)
  {
    if s != [] {
      NeverVersion(s[1..], Params(0, 0, 0));
    }
  }

  lemma {:induction false} NeverVersion(s: seq<Byte>, p: Params)
    ensures GoTlvs(s, p) != WrongVersion && CTlvs(s, p) != WrongVersion
    decreases |s|
  {
    if |s| >= 4 {
      SplitsAgree(Head(s));
      var (typ, length) := TLFrom(Head(s));
      if |s| >= 4 + length {
        var val, rest := s[4..4 + length], s[4 + length..];
        NeverVersion(rest, p);
        if length == 4 {
          NeverVersion(rest, SetSize(p, typ, FromBe32(val)));
          NeverVersion(rest, CSetSize(p, typ, FromBe32(val)));
        }
      }
    }
  }

  /** The value of the last message that carries a size of this type, zero without one. */
  function LastSize(ms: seq<Msg>, typ: U16): U32 {
    if ms == [] then 0
    else
      var m := ms[|ms| - 1];
      if m.Tlv? && m.typ == typ && |m.val| == 4 then FromBe32(m.val) else LastSize(ms[..|ms| - 1], typ)
  }

  function SizesOf(ms: seq<Msg>): Params {
    Params(LastSize(ms, FANOUT_SIZE), LastSize(ms, BLOCK_SIZE), LastSize(ms, NUM_BLOCKS))
  }

  /** The message makes the Go client stop reading. */
  predicate GoStops(m: Msg) {
    m.Index? || !(0x8003 <= m.typ <= 0xC005) || (0x8003 <= m.typ <= 0x8005 && |m.val| != 4)
  }

  predicate CStops(m: Msg) { m == Tlv(0x8002, []) }

  function Before(ms: seq<Msg>, stops: Msg -> bool): (k: nat)
    ensures k <= |ms| && (k < |ms| ==> stops(ms[k]))
  {
    if ms == [] || stops(ms[0]) then 0 else 1 + Before(ms[1..], stops)
  }

  /** What the Go client makes of the message that stops it. */
  function GoStopped(ms: seq<Msg>, k: nat, p: Params): Connected
    requires k <= |ms|
  {
    if k == |ms| then ShortRead
    else if ms[k].Index? || !(0x8002 <= ms[k].typ <= 0xC005) then NotServerType
    else if ms[k].typ == 0x8002 then GoFinish(p, EncodeAll(ms[k + 1..]))
    else BadLength
  }

  function CStopped(ms: seq<Msg>, k: nat, p: Params): Connected
    requires k <= |ms|
  {
    if k == |ms| then ShortRead else CFinish(p, EncodeAll(ms[k + 1..]))
  }

  /** One message of the handshake, as the clients read it. */
  lemma OneMessage(m: Msg, tail: seq<Byte>, p: Params)
    requires Framed(m)
    ensures var s := Encode(m) + tail;
      && (!GoStops(m) ==> GoTlvs(s, p) == GoTlvs(tail, Kept(p, m)))
      && (m.Index? || !(0x8002 <= m.typ <= 0xC005) ==> GoTlvs(s, p) == NotServerType)
      && (m.Tlv? && m.typ == 0x8002 ==> GoTlvs(s, p) == GoFinish(p, tail))
      && (m.Tlv? && 0x8003 <= m.typ <= 0x8005 && |m.val| != 4 ==> GoTlvs(s, p) == BadLength)
  {
    EncodedHead(m, tail);
    if m.Tlv? {
      TypeRanges(m.typ);
    }
  }

  /** The sizes after a message that does not stop the client. */
  function Kept(p: Params, m: Msg): Params {
    if m.Tlv? && |m.val| == 4 then SetSize(p, m.typ, FromBe32(m.val)) else p
  }

  lemma OneCMessage(m: Msg, tail: seq<Byte>, p: Params)
    requires Framed(m)
    ensures var s := Encode(m) + tail;
      CTlvs(s, p) == if CStops(m) then CFinish(p, tail) else CTlvs(tail, CKept(p, m))
  {
    EncodedHead(m, tail);
    SplitsAgree(Head(Encode(m) + tail));
  }

  function CKept(p: Params, m: Msg): Params {
    if m.Tlv? && |m.val| == 4 then CSetSize(p, m.typ, FromBe32(m.val)) else p
  }

  /** The sizes that the messages leave, starting from p. */
  function Fold(p: Params, ms: seq<Msg>): Params {
    if ms == [] then p else Kept(Fold(p, ms[..|ms| - 1]), ms[|ms| - 1])
  }

  function CFold(p: Params, ms: seq<Msg>): Params {
    if ms == [] then p else CKept(CFold(p, ms[..|ms| - 1]), ms[|ms| - 1])
  }

  lemma {:induction false} FoldFront(p: Params, m: Msg, ms: seq<Msg>)
    ensures Fold(p, [m] + ms) == Fold(Kept(p, m), ms)
    ensures CFold(p, [m] + ms) == CFold(CKept(p, m), ms)
  {
    var all := [m] + ms;
    if ms == [] {
      assert all[..0] == [];
    } else {
      FoldFront(p, m, ms[..|ms| - 1]);
      assert all[..|all| - 1] == [m] + ms[..|ms| - 1];
    }
  }

  lemma {:induction false} FoldIsSizes(ms: seq<Msg>)
    ensures Fold(Params(0, 0, 0), ms) == SizesOf(ms)
    ensures CFold(Params(0, 0, 0), ms) == CView(SizesOf(ms))
  {
    if ms != [] {
      FoldIsSizes(ms[..|ms| - 1]);
    }
  }

  lemma StoppedShift(ms: seq<Msg>, j: nat, p: Params)
    requires ms != [] && j < |ms|
    ensures GoStopped(ms[1..], j, p) == GoStopped(ms, j + 1, p)
    ensures CStopped(ms[1..], j, p) == CStopped(ms, j + 1, p)
  {
    if j + 1 < |ms| {
      assert ms[1..][j] == ms[j + 1] && ms[1..][j + 1..] == ms[j + 2..];
    }
  }

  lemma GoFirst(ms: seq<Msg>, p: Params)
    requires ms != [] && Framed(ms[0])
    ensures GoTlvs(EncodeAll(ms), p) ==
      if GoStops(ms[0]) then GoStopped(ms, 0, p) else GoTlvs(EncodeAll(ms[1..]), Kept(p, ms[0]))
  {
    OneMessage(ms[0], EncodeAll(ms[1..]), p);
  }

  lemma {:induction false} GoReadsHello(ms: seq<Msg>, p: Params)
    requires AllFramed(ms)
    ensures var k := Before(ms, GoStops); GoTlvs(EncodeAll(ms), p) == GoStopped(ms, k, Fold(p, ms[..k]))
    decreases |ms|
  {
    var k := Before(ms, GoStops);
    if ms != [] {
      assert Framed(ms[0]);
      GoFirst(ms, p);
      if GoStops(ms[0]) {
        assert ms[..0] == [];
      } else {
        GoReadsHello(ms[1..], Kept(p, ms[0]));
        FoldFront(p, ms[0], ms[1..][..k - 1]);
        assert ms[..k] == [ms[0]] + ms[1..][..k - 1];
        StoppedShift(ms, k - 1, Fold(p, ms[..k]));
      }
    }
  }

  lemma {:induction false} CReadsHello(ms: seq<Msg>, p: Params)
    requires AllFramed(ms)
    ensures var k := Before(ms, CStops); CTlvs(EncodeAll(ms), p) == CStopped(ms, k, CFold(p, ms[..k]))
    decreases |ms|
  {
    var k := Before(ms, CStops);
    if ms != [] {
      assert Framed(ms[0]);
      OneCMessage(ms[0], EncodeAll(ms[1..]), p);
      if CStops(ms[0]) {
        assert ms[..0] == [];
      } else {
        CReadsHello(ms[1..], CKept(p, ms[0]));
        FoldFront(p, ms[0], ms[1..][..k - 1]);
        assert ms[..k] == [ms[0]] + ms[1..][..k - 1];
        StoppedShift(ms, k - 1, CFold(p, ms[..k]));
      }
    }
  }

  /** Connecting to any framed stream, by its messages: the Go client goes up to the first
      message that is not from a server, ends the hello, or carries a size in other than
      four bytes; the C client up to the first empty end of the hello; both then have the last
      value of each size before it. */
  lemma ConnectOnMessages(ms: seq<Msg>)
    requires AllFramed(ms)
    ensures var k := Before(ms, GoStops); GoConnect([2] + EncodeAll(ms)) == GoStopped(ms, k, SizesOf(ms[..k]))
    ensures var k := Before(ms, CStops); CConnect([2] + EncodeAll(ms)) == CStopped(ms, k, CView(SizesOf(ms[..k])))
  {
    assert ([2] + EncodeAll(ms))[1..] == EncodeAll(ms);
    GoReadsHello(ms, Params(0, 0, 0));
    CReadsHello(ms, Params(0, 0, 0));
    FoldIsSizes(ms[..Before(ms, GoStops)]);
    FoldIsSizes(ms[..Before(ms, CStops)]);
  }

  // ---- The server ---------------------------------------------------------------

  /** A conversion to uint32. */
  function Word(x: int): U32 { x % 0x1_0000_0000 }

  /** The message that carries a size. */
  function SizeTlv(typ: U16, v: U32): Msg { Tlv(typ, Be32(v)) }

  /** What handle writes after the version byte. */
  function HelloMsgs(p: Params): seq<Msg> {
    [SizeTlv(FANOUT_SIZE, Word(p.fanoutSize)), SizeTlv(BLOCK_SIZE, Word(p.blockSize)),
     SizeTlv(NUM_BLOCKS, Word(p.numBlocks)), Tlv(WAITING_FOR_FANOUT_INDEX, [])]
  }

  function Hello(p: Params): seq<Byte> { [VERSION] + EncodeAll(HelloMsgs(p)) }

  /** The header of a TLV as four bytes. */
  lemma HeaderBytes(typ: U16, length: nat, a: Byte, b: Byte, c: Byte, d: Byte)
    requires typ == a * 0x100 + b && length == c * 0x100 + d
    ensures Be32(ToTL(typ, length)) == [a, b, c, d]
  {
    var w := typ * 0x1_0000 + length;
    assert ToTL(typ, length) == w && w / 0x1_0000 == typ && w % 0x1_0000 == length;
  }

  /** The hello byte for byte. */
  lemma HelloBytes(p: Params)
    ensures Hello(p) ==
      [2] + (([0x80, 3, 0, 4] + Be32(Word(p.fanoutSize))) +
             (([0x80, 4, 0, 4] + Be32(Word(p.blockSize))) +
              (([0x80, 5, 0, 4] + Be32(Word(p.numBlocks))) + [0x80, 2, 0, 0])))
  {
    var ms := HelloMsgs(p);
    FourEncoded(ms[0], ms[1], ms[2], ms[3]);
    HeaderBytes(FANOUT_SIZE, 4, 0x80, 3, 0, 4);
    HeaderBytes(BLOCK_SIZE, 4, 0x80, 4, 0, 4);
    HeaderBytes(NUM_BLOCKS, 4, 0x80, 5, 0, 4);
    HeaderBytes(WAITING_FOR_FANOUT_INDEX, 0, 0x80, 2, 0, 0);
    assert Encode(ms[3]) == [0x80, 2, 0, 0] + [];
  }

  /** SendUint32 and SendType write these messages and do not fail. */
  lemma HelloIsSent(p: Params)
    ensures SendUint32(FANOUT_SIZE, Word(p.fanoutSize)) == Bytes(Encode(HelloMsgs(p)[0]))
    ensures SendUint32(BLOCK_SIZE, Word(p.blockSize)) == Bytes(Encode(HelloMsgs(p)[1]))
    ensures SendUint32(NUM_BLOCKS, Word(p.numBlocks)) == Bytes(Encode(HelloMsgs(p)[2]))
    ensures SendType(WAITING_FOR_FANOUT_INDEX) == Bytes(Encode(HelloMsgs(p)[3]))
  {
  }

  /** One size on the stream. */
  lemma SizeStep(typ: U16, v: U32, tail: seq<Byte>, p: Params)
    requires Sized(typ)
    ensures var s := Encode(SizeTlv(typ, v)) + tail;
      && GoTlvs(s, p) == GoTlvs(tail, SetSize(p, typ, v))
      && EmptyEnd(s) == EmptyEnd(tail)
      && CTlvs(s, p) == CTlvs(tail, CSetSize(p, typ, v))
  {
    var m := SizeTlv(typ, v);
    EncodedHead(m, tail);
    Be32RoundTrip(v, Be32(v));
    SplitsAgree(Head(Encode(m) + tail));
  }

  lemma EndStep(tail: seq<Byte>, p: Params)
    ensures var s := Encode(Tlv(WAITING_FOR_FANOUT_INDEX, [])) + tail;
      GoTlvs(s, p) == GoFinish(p, tail) && CTlvs(s, p) == CFinish(p, tail) && EmptyEnd(s)
  {
    EncodedHead(Tlv(WAITING_FOR_FANOUT_INDEX, []), tail);
    SplitsAgree(Head(Encode(Tlv(WAITING_FOR_FANOUT_INDEX, [])) + tail));
  }

  /** The whole hello, as the clients see it. */
  lemma HelloRead(p: Params, tail: seq<Byte>)
    ensures var w := Params(Word(p.fanoutSize), Word(p.blockSize), Word(p.numBlocks));
      && GoConnect(Hello(p) + tail) == GoFinish(w, tail)
      && CConnect(Hello(p) + tail) == CFinish(CView(w), tail)
  {
    var ms := HelloMsgs(p);
    var t3 := Encode(ms[3]) + tail;
    var t2 := Encode(ms[2]) + t3;
    var t1 := Encode(ms[1]) + t2;
    var t0 := Encode(ms[0]) + t1;
    assert Hello(p) + tail == [VERSION] + t0 by {
      FourEncoded(ms[0], ms[1], ms[2], ms[3]);
    }
    assert (Hello(p) + tail)[1..] == t0;
    var p0 := Params(0, 0, 0);
    var (f, b, n) := (Word(p.fanoutSize), Word(p.blockSize), Word(p.numBlocks));
    SizeStep(FANOUT_SIZE, f, t1, p0);
    SizeStep(BLOCK_SIZE, b, t2, Params(f, 0, 0));
    SizeStep(BLOCK_SIZE, b, t2, Params(ToInt32(f), 0, 0));
    SizeStep(NUM_BLOCKS, n, t3, Params(f, b, 0));
    SizeStep(NUM_BLOCKS, n, t3, Params(ToInt32(f), b, 0));
    EndStep(tail, Params(f, b, n));
    EndStep(tail, Params(ToInt32(f), b, n));
  }

  lemma FourEncoded(a: Msg, b: Msg, c: Msg, d: Msg)
    ensures EncodeAll([a, b, c, d]) == Encode(a) + (Encode(b) + (Encode(c) + Encode(d)))
  {
    assert [a, b, c, d][1..] == [b, c, d];
    assert [b, c, d][1..] == [c, d];
    assert [c, d][1..] == [d];
    assert EncodeAll([d]) == Encode(d) + [];
    assert EncodeAll([c, d]) == Encode(c) + EncodeAll([d]);
    assert EncodeAll([b, c, d]) == Encode(b) + EncodeAll([c, d]);
  }

  lemma WordFits(x: int)
    ensures Word(x) == x <==> 0 <= x < 0x1_0000_0000
    ensures x >= 0 ==> (ToInt32(Word(x)) == x <==> x < 0x8000_0000)
  {
  }

  /** Handshake agreement: after the server's messages a client holds the server's sizes,
      with exactly the following bytes unread, if and only if they are positive and fit:
      in 32 bits, and for the C client's fanout size in 31.  The fanout size is a number
      of sockets; the other two come from the configuration. */
  lemma HandshakeAgreement(p: Params, tail: seq<Byte>)
    requires 0 <= p.fanoutSize
    ensures GoConnect(Hello(p) + tail) == Ok(p, tail) <==>
      0 < p.fanoutSize < 0x1_0000_0000 && 0 < p.blockSize < 0x1_0000_0000 && 0 < p.numBlocks < 0x1_0000_0000
    ensures CConnect(Hello(p) + tail) == Ok(p, tail) <==>
      0 < p.fanoutSize < 0x8000_0000 && 0 < p.blockSize < 0x1_0000_0000 && 0 < p.numBlocks < 0x1_0000_0000
  {
    HelloRead(p, tail);
    WordFits(p.fanoutSize);
    WordFits(p.blockSize);
    WordFits(p.numBlocks);
  }

  // ---- The fanout index ---------------------------------------------------------------

  /** What testimony_init sends; `idx` is an int. */
  function FanoutMsg(idx: int): seq<Byte> {
    Be32(ToTL(FANOUT_INDEX, 4)) + Be32(Word(idx))
  }

  datatype Accepted = Socket(idx: nat) | Unexpected | InvalidIndex

  /** The checks of handle on the eight bytes it reads, with n sockets. */
  function ServerAccept(msg: seq<Byte>, n: nat): Accepted
    requires |msg| == 8
  {
    if FromBe32(msg[..4]) != ToTL(FANOUT_INDEX, 4) then Unexpected
    else if FromBe32(msg[4..]) >= n then InvalidIndex
    else Socket(FromBe32(msg[4..]))
  }

  /** The fanout message byte for byte. */
  lemma FanoutBytes(idx: int)
    ensures FanoutMsg(idx) == [0xC0, 7, 0, 4] + Be32(Word(idx))
  {
    HeaderBytes(FANOUT_INDEX, 4, 0xC0, 7, 0, 4);
  }

  /** Both clients send the same eight bytes. */
  lemma FanoutMsgIsSent(idx: int)
    ensures SendUint32(FANOUT_INDEX, Word(idx)) == Bytes(FanoutMsg(idx))
  {
  }

  /** The server selects socket i exactly for the message of fanout index i, and exactly when
      i is one of its sockets; a fanout index outside 32 bits is taken modulo 2^32. */
  lemma FanoutSelection(idx: int, n: nat, msg: seq<Byte>)
    requires |msg| == 8
    ensures ServerAccept(msg, n) == Socket(Word(idx)) <==> msg == FanoutMsg(idx) && Word(idx) < n
    ensures ServerAccept(msg, n) == Unexpected <==> msg[..4] != [0xC0, 7, 0, 4]
    ensures msg == FanoutMsg(idx) && Word(idx) >= n ==> ServerAccept(msg, n) == InvalidIndex
  {
    var a, b := ToTL(FANOUT_INDEX, 4), Word(idx);
    HeaderBytes(FANOUT_INDEX, 4, 0xC0, 7, 0, 4);
    Be32RoundTrip(a, msg[..4]);
    Be32RoundTrip(b, msg[4..]);
    assert FanoutMsg(idx)[..4] == Be32(a) && FanoutMsg(idx)[4..] == Be32(b);
    assert msg == msg[..4] + msg[4..];
  }
}
