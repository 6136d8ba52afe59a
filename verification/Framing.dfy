/**
 The stream after the handshake: TLVs and bare block indexes, and the two clients that
 read it, `Conn.Block` in Go and `testimony_get_block` in C.
 */
module Framing {
  import opened Wire

  datatype Msg = Index(i: U32) | Tlv(typ: U16, val: seq<Byte>)

  /** What can be framed at all. */
  predicate Framed(m: Msg) {
    match m
    case Index(i) => i < TOP_BIT
    case Tlv(typ, val) => typ >= 0x8000 && |val| <= 0xFFFF
  }

  /** What a server may send. */
  predicate FromServer(m: Msg) {
    Framed(m) && (m.Tlv? ==> TypeOf(m.typ) == SERVER_TO_CLIENT)
  }

  predicate AllFramed(ms: seq<Msg>) { forall k :: 0 <= k < |ms| ==> Framed(ms[k]) }

  predicate AllFromServer(ms: seq<Msg>) { forall k :: 0 <= k < |ms| ==> FromServer(ms[k]) }

  function Encode(m: Msg): seq<Byte> {
    match m
    case Index(i) => Be32(i)
    case Tlv(typ, val) => Be32(ToTL(typ, |val|)) + val
  }

  function EncodeAll(ms: seq<Msg>): seq<Byte> {
    if ms == [] then [] else Encode(ms[0]) + EncodeAll(ms[1..])
  }

  /** The first word of a stream. */
  function Head(s: seq<Byte>): U32
    requires |s| >= 4
  {
    FromBe32(s[..4])
  }

  // ---- The two readers ------------------------------------------------------

  /** How a call for the next block ends, and what it leaves unread. */
  datatype Read =
    | Block(index: U32, rest: seq<Byte>)
    | OutOfRange(index: U32, rest: seq<Byte>)
    | WrongType(rest: seq<Byte>)
    | Short

  function CheckIndex(num: U32, rest: seq<Byte>, n: nat): Read {
    if num < n then Block(num, rest) else OutOfRange(num, rest)
  }

  /** Conn.Block on a stream, for n blocks. */
  function GoRead(s: seq<Byte>, n: nat): (r: Read)
    ensures r.Block? ==> |r.rest| < |s| && r.index < n
    decreases |s|
  {
    if |s| < 4 then Short
    else
      var (typ, length) := TLFrom(Head(s));
      if TypeOf(typ) == BLOCK_INDEX then CheckIndex(Head(s), s[4..], n)
      else if TypeOf(typ) == SERVER_TO_CLIENT then
        if |s| < 4 + length then Short else GoRead(s[4 + length..], n)
      else WrongType(s[4..])
  }

  /** testimony_get_block on a stream, for n blocks; also the way in which handleReads of
      the daemon takes indexes from a client, whose TLVs it ignores whatever their type. */
  function CRead(s: seq<Byte>, n: nat): (r: Read)
    ensures r.Block? ==> |r.rest| < |s| && r.index < n
    decreases |s|
  {
    if |s| < 4 then Short
    else if CType(Head(s)) == BLOCK_INDEX then CheckIndex(Head(s), s[4..], n)
    else if |s| < 4 + CLength(Head(s)) then Short
    else CRead(s[4 + CLength(Head(s))..], n)
  }

  /** On every stream the readers agree, up to the first TLV that the Go reader rejects. */
  lemma {:induction false} ReadersAgree(s: seq<Byte>, n: nat)
    ensures GoRead(s, n).WrongType? || GoRead(s, n) == CRead(s, n)
    ensures !CRead(s, n).WrongType?
    decreases |s|
  {
    if |s| >= 4 {
      SplitsAgree(Head(s));
      var length := CLength(Head(s));
      if CType(Head(s)) != BLOCK_INDEX && |s| >= 4 + length {
        ReadersAgree(s[4 + length..], n);
      }
    }
  }

  // ---- Encoded streams ---------------------------------------------------------

  lemma EncodedHead(m: Msg, tail: seq<Byte>)
    requires Framed(m)
    ensures var s := Encode(m) + tail;
      && |s| >= 4
      && (m.Index? ==> Head(s) == m.i && s[4..] == tail)
      && (m.Tlv? ==> TLFrom(Head(s)) == (m.typ, |m.val|) && Head(s) >= TOP_BIT
                     && |s| >= 4 + |m.val| && s[4..4 + |m.val|] == m.val && s[4 + |m.val|..] == tail)
  {
    var s := Encode(m) + tail;
    match m
    case Index(i) =>
      Be32RoundTrip(i, Be32(i));
      assert s[..4] == Be32(i);
    case Tlv(typ, val) =>
      var w := ToTL(typ, |val|);
      Be32RoundTrip(w, Be32(w));
      assert s[..4] == Be32(w);
      TLRoundTrip(typ, |val|);
      TLInjective(typ, |val|, typ, |val|);
  }

  /** The number of messages before the first index. */
  function Leading(ms: seq<Msg>): (k: nat)
    ensures k <= |ms| && (k < |ms| ==> ms[k].Index?)
  {
    if ms == [] || ms[0].Index? then 0 else 1 + Leading(ms[1..])
  }

  /** What the readers should find in a sequence of messages. */
  function FirstBlock(ms: seq<Msg>, n: nat): Read {
    var k := Leading(ms);
    if k == |ms| then Short else CheckIndex(ms[k].i, EncodeAll(ms[k + 1..]), n)
  }

  /** The C reader finds the next index in any framed stream, TLVs of any type. */
  lemma {:induction false} CReadsEncoded(ms: seq<Msg>, n: nat)
    requires AllFramed(ms)
    ensures CRead(EncodeAll(ms), n) == FirstBlock(ms, n)
  {
    if ms != [] {
      assert Framed(ms[0]);
      EncodedHead(ms[0], EncodeAll(ms[1..]));
      SplitsAgree(Head(EncodeAll(ms)));
      if ms[0].Tlv? {
        CReadsEncoded(ms[1..], n);
        TlvFirst(ms, n);
      }
    }
  }

  lemma TlvFirst(ms: seq<Msg>, n: nat)
    requires ms != [] && ms[0].Tlv?
    ensures FirstBlock(ms, n) == FirstBlock(ms[1..], n)
  {
  }

  lemma LeadingServer(ms: seq<Msg>)
    requires ms != [] && ms[0].Tlv?
    ensures AllFromServer(ms[..Leading(ms)]) <==>
            FromServer(ms[0]) && AllFromServer(ms[1..][..Leading(ms[1..])])
  {
    var p, q := ms[..Leading(ms)], ms[1..][..Leading(ms[1..])];
    assert p == [ms[0]] + q;
    if AllFromServer(p) {
      assert p[0] == ms[0];
      forall k | 0 <= k < |q| ensures FromServer(q[k]) { assert q[k] == p[k + 1]; }
    }
  }

  /** The Go reader finds the same index if and only if no TLV before it has a type other
      than server-to-client. */
  lemma {:induction false} GoReadsEncoded(ms: seq<Msg>, n: nat)
    requires AllFramed(ms)
    ensures GoRead(EncodeAll(ms), n) == FirstBlock(ms, n) <==> AllFromServer(ms[..Leading(ms)])
    ensures GoRead(EncodeAll(ms), n).WrongType? <==> !AllFromServer(ms[..Leading(ms)])
  {
    if ms != [] {
      assert Framed(ms[0]);
      EncodedHead(ms[0], EncodeAll(ms[1..]));
      if ms[0].Tlv? {
        GoReadsEncoded(ms[1..], n);
        TlvFirst(ms, n);
        LeadingServer(ms);
      }
    }
  }

  // ---- Whole streams --------------------------------------------------------------

  function Indexes(ms: seq<Msg>): seq<U32> {
    if ms == [] then [] else (if ms[0].Index? then [ms[0].i] else []) + Indexes(ms[1..])
  }

  /** All the blocks that a client gets out of a stream. */
  function GoBlocks(s: seq<Byte>, n: nat): seq<U32>
    decreases |s|
  {
    var r := GoRead(s, n);
    if r.Block? then [r.index] + GoBlocks(r.rest, n) else []
  }

  function CBlocks(s: seq<Byte>, n: nat): seq<U32>
    decreases |s|
  {
    var r := CRead(s, n);
    if r.Block? then [r.index] + CBlocks(r.rest, n) else []
  }

  predicate IndexesBelow(ms: seq<Msg>, n: nat) {
    forall k :: 0 <= k < |ms| && ms[k].Index? ==> ms[k].i < n
  }

  lemma {:induction false} IndexesFrom(ms: seq<Msg>, k: nat)
    requires k == Leading(ms)
    ensures k == |ms| ==> Indexes(ms) == []
    ensures k < |ms| ==> Indexes(ms) == [ms[k].i] + Indexes(ms[k + 1..])
  {
    if ms != [] && ms[0].Tlv? {
      var rest := ms[1..];
      IndexesFrom(rest, k - 1);
      assert Indexes(ms) == [] + Indexes(rest) == Indexes(rest);
      if k < |ms| {
        assert rest[k - 1] == ms[k] && rest[k..] == ms[k + 1..];
      }
    }
  }

  /** Framing: for every sequence of indexes and server TLVs, both clients extract exactly
      the indexes, in order, from the concatenated encodings. */
  lemma {:induction false} ClientsReadTheSameBlocks(ms: seq<Msg>, n: nat)
    requires AllFromServer(ms) && IndexesBelow(ms, n)
    ensures GoBlocks(EncodeAll(ms), n) == Indexes(ms) == CBlocks(EncodeAll(ms), n)
    decreases |ms|
  {
    assert AllFramed(ms) by {
      forall k | 0 <= k < |ms| ensures Framed(ms[k]) { assert FromServer(ms[k]); }
    }
    var k := Leading(ms);
    CReadsEncoded(ms, n);
    GoReadsEncoded(ms, n);
    IndexesFrom(ms, k);
    if k < |ms| {
      ClientsReadTheSameBlocks(ms[k + 1..], n);
    }
  }

  // ---- A reference decoder -----------------------------------------------------------

  datatype Parsed = Msgs(ms: seq<Msg>) | Broken

  function Parse(s: seq<Byte>): Parsed
    decreases |s|
  {
    if s == [] then Msgs([])
    else if |s| < 4 then Broken
    else if Head(s) < TOP_BIT then Prepend(Index(Head(s)), Parse(s[4..]))
    else
      var (typ, length) := TLFrom(Head(s));
      if |s| < 4 + length then Broken
      else Prepend(Tlv(typ, s[4..4 + length]), Parse(s[4 + length..]))
  }

  function Prepend(m: Msg, p: Parsed): Parsed {
    if p.Broken? then Broken else Msgs([m] + p.ms)
  }

  lemma ParseStep(m: Msg, tail: seq<Byte>)
    requires Framed(m)
    ensures Parse(Encode(m) + tail) == Prepend(m, Parse(tail))
  {
    EncodedHead(m, tail);
  }

  /** The format is self-delimiting: decoding gives back every framed sequence. */
  lemma {:induction false} ParseEncoded(ms: seq<Msg>)
    requires AllFramed(ms)
    ensures Parse(EncodeAll(ms)) == Msgs(ms)
  {
    if ms != [] {
      assert Framed(ms[0]);
      ParseStep(ms[0], EncodeAll(ms[1..]));
      ParseEncoded(ms[1..]);
      assert ms == [ms[0]] + ms[1..];
    }
  }

  lemma WordOfHead(s: seq<Byte>)
    requires |s| >= 4
    ensures s == Be32(Head(s)) + s[4..]
    ensures Head(s) >= TOP_BIT ==> var (typ, length) := TLFrom(Head(s)); ToTL(typ, length) == Head(s) && typ >= 0x8000
  {
    Be32RoundTrip(Head(s), s[..4]);
  }

  lemma ParseHead(s: seq<Byte>) returns (m: Msg, rest: seq<Byte>)
    requires s != [] && Parse(s).Msgs?
    ensures Framed(m) && s == Encode(m) + rest && |rest| < |s| && Parse(s) == Prepend(m, Parse(rest))
  {
    WordOfHead(s);
    if Head(s) < TOP_BIT {
      m, rest := Index(Head(s)), s[4..];
    } else {
      var (typ, length) := TLFrom(Head(s));
      m, rest := Tlv(typ, s[4..4 + length]), s[4 + length..];
      assert s[4..] == s[4..4 + length] + s[4 + length..];
    }
  }

  /** SendTLV succeeds exactly for the types strictly inside the two ranges and values of at
      most 0xFFFF bytes, and what it writes then decodes to that one TLV. */
  lemma SentTlv(typ: U16, val: seq<Byte>)
    ensures SendTLV(typ, val).Bytes? <==>
      |val| <= 0xFFFF && (0x8002 <= typ <= 0xC005 || 0xC007 <= typ <= 0xFFFE)
    ensures SendTLV(typ, val).Bytes? ==> Parse(SendTLV(typ, val).bytes) == Msgs([Tlv(typ, val)])
  {
    if SendTLV(typ, val).Bytes? {
      ParseStep(Tlv(typ, val), []);
      assert Encode(Tlv(typ, val)) + [] == SendTLV(typ, val).bytes;
    }
  }

  /** And every stream that decodes is the encoding of what it decodes to. */
  lemma {:induction false} EncodeParsed(s: seq<Byte>)
    requires Parse(s).Msgs?
    ensures AllFramed(Parse(s).ms) && EncodeAll(Parse(s).ms) == s
    decreases |s|
  {
    if s != [] {
      var m, rest := ParseHead(s);
      EncodeParsed(rest);
      assert Parse(s).ms == [m] + Parse(rest).ms;
      assert Parse(s).ms[1..] == Parse(rest).ms;
    }
  }
}
