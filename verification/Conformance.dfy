/**
 The daemon together with one client that keeps to the protocol: it reads indexes in the
 order in which they were put on the wire, returns only blocks it holds, each once, and
 the daemon reads the returned indexes in the order in which they were sent.  All other
 clients may send anything.  The packet counters are those of the C library; a Go client
 is one whose blocks count no packets.
 */
module Conformance {
  import opened Connection
  import opened ConnectionProof
  import opened Socket
  import opened SocketProof
  import Safety

  datatype Client = Client(
    seen: nat,               // indexes read from the socket
    held: multiset<nat>,     // blocks given to the application
    sending: multiset<nat>,  // return_block has reset the counter, not yet sent
    returned: seq<nat>,      // indexes sent back
    counts: map<nat, nat>,   // block_counts, zero where absent
    casFailed: bool,         // "block count CAS failed"
    badIndex: bool)          // "received invalid block index"

  function CountOf(c: Client, b: nat): nat { if b in c.counts then c.counts[b] else 0 }

  function NewClient(): Client { Client(0, multiset{}, multiset{}, [], map[], false, false) }

  /** A socket, and the client behind one of its connections. */
  datatype System = System(socket: Socket, client: Client)

  datatype Event =
    | Daemon(a: Action)
    | See(pkts: nat)                    // get_block of a block with pkts packets
    | ReturnPackets(b: nat, pkts: nat)  // some, not all, of the packets of b
    | StartReturn(b: nat)               // the counter of b is reset
    | FinishReturn(b: nat)              // the index b is sent

  /** What can happen when the client of connection `who` keeps to the protocol; what the
      daemon reads from any other client is not restricted. */
  predicate Allowed(y: System, e: Event, who: nat) {
    match e
    case Daemon(a) =>
      && Enabled(y.socket, a)
      && (a.ConnStep? && a.i == who && a.step.ReadIndex? ==>
            var p := |y.socket.conns[who].log.passed|;
            p < |y.client.returned| && a.step.num == y.client.returned[p])
    case See(_) => who < |y.socket.conns| && y.client.seen < |y.socket.conns[who].log.written|
    case ReturnPackets(b, pkts) => b in y.client.held && pkts < CountOf(y.client, b)
    case StartReturn(b) => b in y.client.held
    case FinishReturn(b) => b in y.client.sending
  }

  /** get_block after it has read index b; only a valid block with counter zero is given out. */
  function SeeBlock(c: Client, b: nat, pkts: nat, n: nat): (r: Client)
    ensures if b < n && CountOf(c, b) == 0 then r.held == c.held + multiset{b} && CountOf(r, b) == pkts
            else r.held == c.held && r.counts == c.counts && (r.casFailed || r.badIndex)
  {
    if b >= n then c.(badIndex := true)
    else if CountOf(c, b) != 0 then c.(casFailed := true)
    else c.(seen := c.seen + 1, held := c.held + multiset{b}, counts := c.counts[b := pkts])
  }

  function Happen(y: System, e: Event, who: nat): System
    requires Allowed(y, e, who)
  {
    var c := y.client;
    match e
    case Daemon(a) => y.(socket := Apply(y.socket, a))
    case See(pkts) => y.(client := SeeBlock(c, y.socket.conns[who].log.written[c.seen], pkts, y.socket.n))
    case ReturnPackets(b, pkts) => y.(client := c.(counts := c.counts[b := CountOf(c, b) - pkts]))
    case StartReturn(b) =>
      y.(client := c.(counts := c.counts[b := 0], held := c.held - multiset{b}, sending := c.sending + multiset{b}))
    case FinishReturn(b) => y.(client := c.(sending := c.sending - multiset{b}, returned := c.returned + [b]))
  }

  predicate Happens(y: System, es: seq<Event>, z: System, who: nat)
    decreases |es|
  {
    if es == [] then y == z else Allowed(y, es[0], who) && Happens(Happen(y, es[0], who), es[1..], z, who)
  }

  // ---- The invariant -------------------------------------------------------

  /** What the client has read, it has returned, is returning or holds. */
  ghost predicate Custody(c: Conn, k: Client)
    requires k.seen <= |c.log.written|
  {
    multiset(c.log.written[..k.seen]) == multiset(k.returned) + k.held + k.sending
  }

  /** A connection and its client. */
  ghost predicate Linked(c: Conn, k: Client) {
    && k.seen <= |c.log.written| && Custody(c, k)
    && c.log.passed <= k.returned
    && (forall b: nat :: CountOf(k, b) > 0 ==> k.held[b] > 0)
    && !k.casFailed && !k.badIndex
    && !c.log.ending.NotOutstanding? && !c.log.readEnding.BadIndex?
  }

  ghost predicate InRange(c: Conn, n: nat) {
    forall k :: 0 <= k < |c.log.got| ==> c.log.got[k] < n
  }

  /** A returned index was on the wire. */
  lemma ReturnedWasWritten(c: Conn, k: Client, b: nat)
    requires Linked(c, k)
    ensures multiset(c.log.passed)[b] <= multiset(k.returned)[b] <= multiset(c.log.written)[b]
  {
    PrefixMultiset(c.log.passed, k.returned, b);
    PrefixMultiset(c.log.written[..k.seen], c.log.written, b);
    assert multiset(c.log.written[..k.seen])[b] == (multiset(k.returned) + k.held + k.sending)[b];
  }

  lemma WrittenInRange(c: Conn, n: nat, b: nat)
    requires Inv(c, n) && InRange(c, n) && multiset(c.log.written)[b] > 0
    ensures b < n
  {
  }

  /** An index that comes back is outstanding. */
  lemma ReturnIsOutstanding(c: Conn, k: Client, n: nat)
    requires Inv(c, n) && Linked(c, k) && c.pc.Select? && c.oldQ != []
    ensures c.oldQ[0] >= 1 && c.oldQ[0] - 1 < n && c.oldQ[0] - 1 in c.outstanding
  {
    assert 1 <= c.oldQ[0] <= n;
    var b := c.oldQ[0] - 1;
    assert Accounts(c, b);
    ReturnedWasWritten(c, k, b);
    PrefixMultiset(c.log.written, c.log.got, b);
    assert c.oldQ[0] in multiset(c.oldQ);
  }

  lemma NextReturnInRange(c: Conn, k: Client, n: nat)
    requires Inv(c, n) && InRange(c, n) && Linked(c, k) && |c.log.passed| < |k.returned|
    ensures k.returned[|c.log.passed|] < n
  {
    var b := k.returned[|c.log.passed|];
    assert b in multiset(k.returned);
    ReturnedWasWritten(c, k, b);
    WrittenInRange(c, n, b);
  }

  /** The wire only grows, and the reader appends what it reads. */
  lemma StepWire(c: Conn, a: Step, n: nat)
    requires CanStep(c, a, n)
    ensures c.log.written <= Next(c, a, n).log.written
    ensures a.ReadIndex? && a.num < n ==> Next(c, a, n).log.passed == c.log.passed + [a.num]
    ensures !a.ReadIndex? ==> Next(c, a, n).log.passed == c.log.passed
  {
  }

  lemma StepEndings(c: Conn, k: Client, a: Step, n: nat)
    requires Inv(c, n) && Linked(c, k) && CanStep(c, a, n) && (a.ReadIndex? ==> a.num < n)
    ensures !Next(c, a, n).log.ending.NotOutstanding? && !Next(c, a, n).log.readEnding.BadIndex?
  {
    if a.TakeOld? && c.oldQ != [] {
      ReturnIsOutstanding(c, k, n);
    }
  }

  lemma StepLinked(c: Conn, k: Client, a: Step, n: nat)
    requires Inv(c, n) && InRange(c, n) && Linked(c, k) && CanStep(c, a, n)
    requires a.ReadIndex? ==> |c.log.passed| < |k.returned| && a.num == k.returned[|c.log.passed|]
    ensures Linked(Next(c, a, n), k)
  {
    if a.ReadIndex? {
      NextReturnInRange(c, k, n);
    }
    StepEndings(c, k, a, n);
    StepWire(c, a, n);
    var d := Next(c, a, n);
    assert d.log.written[..k.seen] == c.log.written[..k.seen];
  }

  /** A newly delivered block is not held any more, so its counter is zero. */
  lemma SeenIsNew(c: Conn, k: Client, n: nat)
    requires Inv(c, n) && InRange(c, n) && Linked(c, k) && k.seen < |c.log.written|
    ensures var b := c.log.written[k.seen]; b < n && k.held[b] == 0 && k.sending[b] == 0 && CountOf(k, b) == 0
  {
    var b := c.log.written[k.seen];
    assert c.log.written[..k.seen + 1] == c.log.written[..k.seen] + [b];
    PrefixMultiset(c.log.written[..k.seen + 1], c.log.written, b);
    PrefixMultiset(c.log.passed, k.returned, b);
    assert Accounts(c, b);
    assert multiset(c.log.written[..k.seen])[b] == (multiset(k.returned) + k.held + k.sending)[b];
    WrittenInRange(c, n, b);
  }

  lemma SeeCustody(c: Conn, k: Client, b: nat)
    requires k.seen < |c.log.written| && Custody(c, k) && b == c.log.written[k.seen]
    ensures Custody(c, k.(seen := k.seen + 1, held := k.held + multiset{b}))
  {
    assert c.log.written[..k.seen + 1] == c.log.written[..k.seen] + [b];
  }

  lemma SeeCounts(k: Client, b: nat, pkts: nat)
    requires forall x: nat :: CountOf(k, x) > 0 ==> k.held[x] > 0
    ensures var m := k.(seen := k.seen + 1, held := k.held + multiset{b}, counts := k.counts[b := pkts]);
      forall x: nat :: CountOf(m, x) > 0 ==> m.held[x] > 0
  {
  }

  lemma SeeLinked(c: Conn, k: Client, pkts: nat, n: nat)
    requires Inv(c, n) && InRange(c, n) && Linked(c, k) && k.seen < |c.log.written|
    ensures Linked(c, SeeBlock(k, c.log.written[k.seen], pkts, n))
  {
    var b := c.log.written[k.seen];
    SeenIsNew(c, k, n);
    SeeCustody(c, k, b);
    SeeCounts(k, b, pkts);
  }

  /** What a client does with a block it holds. */
  lemma ReturnLinked(c: Conn, k: Client, b: nat)
    requires Linked(c, k)
    ensures b in k.held ==>
      Linked(c, k.(counts := k.counts[b := 0], held := k.held - multiset{b}, sending := k.sending + multiset{b}))
    ensures b in k.sending ==>
      Linked(c, k.(sending := k.sending - multiset{b}, returned := k.returned + [b]))
  {
  }

  ghost predicate SystemInv(y: System, who: nat) {
    && SocketInv(y.socket)
    && if who < |y.socket.conns| then Linked(y.socket.conns[who], y.client) else y.client == NewClient()
  }

  lemma ConnInRange(s: Socket, i: nat)
    requires SocketInv(s) && i < |s.conns|
    ensures InRange(s.conns[i], s.n)
  {
    assert PositionAt(s, i);
  }

  /** Whatever the daemon does, and whatever the other clients send it. */
  lemma DaemonKeeps(y: System, a: Action, who: nat)
    requires SystemInv(y, who) && Allowed(y, Daemon(a), who)
    ensures SystemInv(Happen(y, Daemon(a), who), who)
  {
    var s := y.socket;
    ActionKeeps(s, a);
    if who >= |s.conns| {
      Safety.NewLogs(s, a, who);
    } else if a.ConnStep? {
      Safety.ConnLogs(s, a.i, a.step, who);
      if who == a.i {
        ConnInRange(s, who);
        assert Inv(s.conns[who], s.n);
        StepLinked(s.conns[who], y.client, a.step, s.n);
      }
    } else {
      Safety.OtherLogs(s, a, who);
    }
  }

  lemma ReturnPacketsLinked(c: Conn, k: Client, b: nat, pkts: nat)
    requires Linked(c, k) && b in k.held && pkts < CountOf(k, b)
    ensures Linked(c, k.(counts := k.counts[b := CountOf(k, b) - pkts]))
  {
  }

  lemma EventKeeps(y: System, e: Event, who: nat)
    requires SystemInv(y, who) && Allowed(y, e, who)
    ensures SystemInv(Happen(y, e, who), who)
  {
    var k := y.client;
    match e
    case Daemon(a) => DaemonKeeps(y, a, who);
    case See(pkts) =>
      ConnInRange(y.socket, who);
      assert Inv(y.socket.conns[who], y.socket.n);
      SeeLinked(y.socket.conns[who], k, pkts, y.socket.n);
    case ReturnPackets(b, pkts) => ReturnPacketsLinked(y.socket.conns[who], k, b, pkts);
    case StartReturn(b) => ReturnLinked(y.socket.conns[who], k, b);
    case FinishReturn(b) => ReturnLinked(y.socket.conns[who], k, b);
  }

  lemma {:induction false} EventsKeep(y: System, es: seq<Event>, z: System, who: nat)
    requires SystemInv(y, who) && Happens(y, es, z, who)
    ensures SystemInv(z, who)
    decreases |es|
  {
    if es != [] {
      EventKeeps(y, es[0], who);
      EventsKeep(Happen(y, es[0], who), es[1..], z, who);
    }
  }

  /** End-to-end conformance: in every run in which client `who` keeps to the protocol,
      whatever the other clients send, the daemon never ends its connection because of an
      invalid or a non-outstanding index, the client is sent no invalid index, and no
      compare-and-swap on the counter of a newly delivered block fails. */
  lemma ConformingClient(n: Size, es: seq<Event>, y: System, who: nat)
    requires Happens(System(Init(n), NewClient()), es, y, who) && who < |y.socket.conns|
    ensures var c, k := y.socket.conns[who], y.client;
      && !c.log.ending.NotOutstanding? && !c.log.readEnding.BadIndex?
      && !k.casFailed && !k.badIndex
      && (forall b: nat :: k.held[b] <= 1)
      && (c.pc.Select? && c.oldQ != [] ==> c.oldQ[0] >= 1 && c.oldQ[0] - 1 in c.outstanding)
  {
    InitInv(n);
    EventsKeep(System(Init(n), NewClient()), es, y, who);
    var c, k := y.socket.conns[who], y.client;
    assert Inv(c, y.socket.n);
    forall b: nat ensures k.held[b] <= 1 {
      assert Accounts(c, b);
      assert multiset(c.log.written[..k.seen])[b] == (multiset(k.returned) + k.held + k.sending)[b];
      PrefixMultiset(c.log.written[..k.seen], c.log.written, b);
      PrefixMultiset(c.log.passed, k.returned, b);
    }
    if c.pc.Select? && c.oldQ != [] {
      ReturnIsOutstanding(c, k, y.socket.n);
    }
  }
}
