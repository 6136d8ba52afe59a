/**
 The wire format of go/protocol/protocol.go and of the C client: big-endian 32-bit words,
 each of which is a block index (top bit clear) or the type and length of a TLV (16 bits
 each, top bit set).
 */
module Wire {
  type Byte = x: int | 0 <= x < 0x100
  type U16 = x: int | 0 <= x < 0x1_0000
  type U32 = x: int | 0 <= x < 0x1_0000_0000

  const TOP_BIT := 0x8000_0000

  const BLOCK_INDEX: U16 := 0
  const SERVER_TO_CLIENT: U16 := 0x8001
  const WAITING_FOR_FANOUT_INDEX: U16 := 0x8002
  const FANOUT_SIZE: U16 := 0x8003
  const BLOCK_SIZE: U16 := 0x8004
  const NUM_BLOCKS: U16 := 0x8005
  const CLIENT_TO_SERVER: U16 := 0xC006
  const FANOUT_INDEX: U16 := 0xC007
  const TYPE_ERROR: U16 := 0xFFFF

  // ---- Big-endian words ---------------------------------------------------

  /** The four bytes of a word, the most significant first. */
  function Be32(x: U32): (s: seq<Byte>)
    ensures |s| == 4
  {
    var h, l := x / 0x1_0000, x % 0x1_0000;
    [h / 0x100, h % 0x100, l / 0x100, l % 0x100]
  }

  function FromBe32(s: seq<Byte>): U32
    requires |s| == 4
  {
    (s[0] as int * 0x100 + s[1] as int) * 0x1_0000 + (s[2] as int * 0x100 + s[3] as int)
  }

  lemma HalfWord(h: int, l: int)
    requires 0 <= l < 0x1_0000
    ensures (h * 0x1_0000 + l) / 0x1_0000 == h && (h * 0x1_0000 + l) % 0x1_0000 == l
  {
  }

  /** The two are inverse to each other. */
  lemma Be32RoundTrip(x: U32, s: seq<Byte>)
    requires |s| == 4
    ensures FromBe32(Be32(x)) == x
    ensures Be32(FromBe32(s)) == s
  {
    var h, l := s[0] as int * 0x100 + s[1] as int, s[2] as int * 0x100 + s[3] as int;
    HalfWord(h, l);
    assert h / 0x100 == s[0] && h % 0x100 == s[1] && l / 0x100 == s[2] && l % 0x100 == s[3];
  }

  // ---- Types and lengths ----------------------------------------------------

  /** protocol.TypeOf: the high-level type of a type. */
  function TypeOf(t: U16): U16 {
    if t < 0x8000 then BLOCK_INDEX
    else if SERVER_TO_CLIENT < t < CLIENT_TO_SERVER then SERVER_TO_CLIENT
    else if CLIENT_TO_SERVER < t < TYPE_ERROR then CLIENT_TO_SERVER
    else TYPE_ERROR
  }

  /** The four classes of types, as ranges. */
  lemma TypeRanges(t: U16)
    ensures TypeOf(t) == 0 <==> t <= 0x7FFF
    ensures TypeOf(t) == 0x8001 <==> 0x8002 <= t <= 0xC005
    ensures TypeOf(t) == 0xC006 <==> 0xC007 <= t <= 0xFFFE
    ensures TypeOf(t) == 0xFFFF <==> t == 0x8000 || t == 0x8001 || t == 0xC006 || t == 0xFFFF
  {
  }

  /** protocol.TLFrom. */
  function TLFrom(from: U32): (U16, U16) {
    if from < TOP_BIT then (BLOCK_INDEX, 0) else (from / 0x1_0000, from % 0x1_0000)
  }

  /** protocol.ToTL, with the shift and the sum in 32 bits. */
  function ToTL(typ: U16, length: nat): U32 {
    (typ as int * 0x1_0000 % 0x1_0000_0000 + length % 0x1_0000_0000) % 0x1_0000_0000
  }

  /** protocol_type and protocol_length of the C client. */
  function CType(x: U32): U32 { if x < TOP_BIT then BLOCK_INDEX else x / 0x1_0000 }
  function CLength(x: U32): U32 { if x < TOP_BIT then 0 else x % 0x1_0000 }

  /** A type and a length survive packing exactly when the type has its top bit and the
      length fits in 16 bits; the one exception is type zero with length zero. */
  lemma TLRoundTrip(typ: U16, length: nat)
    ensures TLFrom(ToTL(typ, length)) == (typ, length) <==>
            (typ >= 0x8000 && length <= 0xFFFF) || (typ == 0 && length == 0)
  {
    var w := typ as int * 0x1_0000;
    assert w % 0x1_0000_0000 == w;
    if length <= 0xFFFF {
      assert ToTL(typ, length) == w + length;
    }
  }

  /** Packing is injective on what SendTLV accepts, and never looks like a block index. */
  lemma TLInjective(t1: U16, l1: nat, t2: U16, l2: nat)
    requires t1 >= 0x8000 && t2 >= 0x8000 && l1 <= 0xFFFF && l2 <= 0xFFFF
    ensures ToTL(t1, l1) >= TOP_BIT
    ensures ToTL(t1, l1) == ToTL(t2, l2) ==> t1 == t2 && l1 == l2
  {
    TLRoundTrip(t1, l1);
    TLRoundTrip(t2, l2);
    assert t1 as int * 0x1_0000 + l1 == ToTL(t1, l1);
  }

  /** The Go and the C code split a word in the same way. */
  lemma SplitsAgree(x: U32)
    ensures CType(x) == TLFrom(x).0 && CLength(x) == TLFrom(x).1
  {
  }

  // ---- Sending ------------------------------------------------------------

  datatype Sent = Bytes(bytes: seq<Byte>) | InvalidType | TooLong

  /** protocol.SendTLV. */
  function SendTLV(typ: U16, val: seq<Byte>): Sent {
    if TypeOf(typ) != SERVER_TO_CLIENT && TypeOf(typ) != CLIENT_TO_SERVER then InvalidType
    else if |val| > 0xFFFF then TooLong
    else Bytes(Be32(ToTL(typ, |val|)) + val)
  }

  function SendUint32(typ: U16, val: U32): Sent { SendTLV(typ, Be32(val)) }

  function SendType(typ: U16): Sent { SendTLV(typ, []) }

  // ---- Returned blocks --------------------------------------------------------

  /** Indexes as they go back to the server. */
  function Returns(blocks: seq<U32>): seq<Byte> {
    if blocks == [] then [] else Returns(blocks[..|blocks| - 1]) + Be32(blocks[|blocks| - 1])
  }

  lemma ReturnsAppend(blocks: seq<U32>, i: U32)
    ensures Returns(blocks + [i]) == Returns(blocks) + Be32(i)
  {
    assert (blocks + [i])[..|blocks|] == blocks;
  }

  lemma Associate<T>(a: seq<T>, b: seq<T>, c: seq<T>)
    ensures (a + b) + c == a + (b + c)
  {
  }
}
