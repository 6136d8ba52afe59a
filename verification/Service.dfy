/**
 What the daemon does for a client that is there: queued blocks reach the wire, returned
 blocks are released, and the connection goes on.  A connection leaves its loop only for
 a reason that can be seen from outside.
 */
module Service {
  import opened Connection
  import opened ConnectionProof
  import opened Socket
  import opened SocketProof
  import opened Fillings
  import opened Ownership

  // ---- Steps of one connection ------------------------------------------------

  /** The steps lead the connection from c to d. */
  predicate Goes(c: Conn, steps: seq<Step>, d: Conn, n: nat)
    decreases |steps|
  {
    if steps == [] then c == d
    else CanStep(c, steps[0], n) && Goes(Next(c, steps[0], n), steps[1..], d, n)
  }

  lemma {:induction false} GoesTrans(c: Conn, xs: seq<Step>, d: Conn, ys: seq<Step>, e: Conn, n: nat)
    requires Goes(c, xs, d, n) && Goes(d, ys, e, n)
    ensures Goes(c, xs + ys, e, n)
    decreases |xs|
  {
    if xs == [] {
      assert xs + ys == ys;
    } else {
      assert (xs + ys)[1..] == xs[1..] + ys;
      GoesTrans(Next(c, xs[0], n), xs[1..], d, ys, e, n);
    }
  }

  lemma GoesOne(c: Conn, a: Step, n: nat)
    requires CanStep(c, a, n)
    ensures Goes(c, [a], Next(c, a, n), n)
  {
  }

  lemma GoesTwo(c: Conn, a: Step, b: Step, n: nat)
    requires CanStep(c, a, n) && CanStep(Next(c, a, n), b, n)
    ensures Goes(c, [a, b], Next(Next(c, a, n), b, n), n)
  {
    GoesOne(c, a, n);
    GoesOne(Next(c, a, n), b, n);
    GoesTrans(c, [a], Next(c, a, n), [b], Next(Next(c, a, n), b, n), n);
    assert [a] + [b] == [a, b];
  }

  function Elements(q: seq<nat>): set<nat> { set b | b in q }

  // ---- Delivery -----------------------------------------------------------------

  /** k rounds of the batching loop. */
  function Rounds(k: nat): seq<Step> { if k == 0 then [] else [Mark, PollNew] + Rounds(k - 1) }

  function Transfers(k: nat): seq<Step> { if k == 0 then [] else [Transfer] + Transfers(k - 1) }

  /** Receive, batch and write k blocks. */
  function ServeSteps(k: nat): seq<Step> { [TakeNew] + (Rounds(k) + (Transfers(k) + [WriteDone])) }

  /** The batch is complete and the write begins. */
  function BatchedConn(c: Conn, b: nat): Conn {
    c.(pc := Write(0), newQ := [], out := c.out + [b] + c.newQ,
       outstanding := c.outstanding + {b} + Elements(c.newQ), log := c.log.(got := c.log.got + c.newQ))
  }

  /** One round with another block in the queue. */
  function NextBlock(c: Conn, b: nat): Conn
    requires c.newQ != []
  {
    c.(pc := Received(c.newQ[0]), newQ := c.newQ[1..], out := c.out + [b], outstanding := c.outstanding + {b},
       log := c.log.(got := c.log.got + [c.newQ[0]]))
  }

  lemma OneRound(c: Conn, b: nat, n: nat)
    requires c.pc == Received(b) && !c.newClosed && b !in c.outstanding
    ensures Goes(c, [Mark, PollNew], if c.newQ == [] then BatchedConn(c, b) else NextBlock(c, b), n)
  {
    GoesTwo(c, Mark, PollNew, n);
    if c.newQ == [] {
      assert c.out + [b] + c.newQ == c.out + [b] && c.log.got + c.newQ == c.log.got;
      assert c.outstanding + {b} + Elements(c.newQ) == c.outstanding + {b};
    }
  }

  lemma ElementsPop(q: seq<nat>)
    requires q != []
    ensures [q[0]] + q[1..] == q && Elements(q) == {q[0]} + Elements(q[1..])
  {
  }

  lemma BatchedAfter(c: Conn, b: nat)
    requires c.newQ != []
    ensures BatchedConn(NextBlock(c, b), c.newQ[0]) == BatchedConn(c, b)
  {
    var q := c.newQ;
    ElementsPop(q);
    assert c.out + [b] + q == c.out + [b] + [q[0]] + q[1..];
    assert c.log.got + q == c.log.got + [q[0]] + q[1..];
    assert c.outstanding + {b} + Elements(q) == c.outstanding + {b} + {q[0]} + Elements(q[1..]);
  }

  lemma NextIsFresh(c: Conn, b: nat)
    requires c.newQ != [] && Distinct([b] + c.newQ)
    requires forall k :: 0 <= k < |c.newQ| ==> c.newQ[k] !in c.outstanding
    ensures var d := NextBlock(c, b);
      && Distinct([c.newQ[0]] + d.newQ) && c.newQ[0] !in d.outstanding
      && forall k :: 0 <= k < |d.newQ| ==> d.newQ[k] !in d.outstanding
  {
    var q := c.newQ;
    assert [q[0]] + q[1..] == q;
    assert ([b] + q)[0] == b && forall k :: 0 <= k < |q| ==> ([b] + q)[k + 1] == q[k];
  }

  lemma {:induction false} QueueIsBatched(c: Conn, b: nat, n: nat)
    requires c.pc == Received(b) && !c.newClosed && Distinct([b] + c.newQ)
    requires b !in c.outstanding && forall k :: 0 <= k < |c.newQ| ==> c.newQ[k] !in c.outstanding
    ensures Goes(c, Rounds(1 + |c.newQ|), BatchedConn(c, b), n)
    decreases |c.newQ|
  {
    OneRound(c, b, n);
    if c.newQ == [] {
      GoesTrans(c, [Mark, PollNew], BatchedConn(c, b), Rounds(0), BatchedConn(c, b), n);
    } else {
      var d := NextBlock(c, b);
      NextIsFresh(c, b);
      BatchedAfter(c, b);
      QueueIsBatched(d, c.newQ[0], n);
      GoesTrans(c, [Mark, PollNew], d, Rounds(|c.newQ|), BatchedConn(c, b), n);
    }
  }

  /** The rest of the batch has been written. */
  function WrittenConn(c: Conn, w: nat): Conn
    requires w <= |c.out|
  {
    c.(pc := Write(|c.out|), log := c.log.(written := c.log.written + c.out[w..]))
  }

  lemma WrittenAfter(c: Conn, w: nat)
    requires w < |c.out|
    ensures WrittenConn(TransferOne(c, w), w + 1) == WrittenConn(c, w)
  {
    assert c.out[w..] == [c.out[w]] + c.out[w + 1..];
    assert c.log.written + [c.out[w]] + c.out[w + 1..] == c.log.written + c.out[w..];
  }

  lemma {:induction false} BatchIsWritten(c: Conn, w: nat, n: nat)
    requires c.pc == Write(w) && w <= |c.out|
    ensures Goes(c, Transfers(|c.out| - w), WrittenConn(c, w), n)
    decreases |c.out| - w
  {
    if w == |c.out| {
      assert c.log.written + c.out[w..] == c.log.written;
    } else {
      GoesOne(c, Transfer, n);
      BatchIsWritten(TransferOne(c, w), w + 1, n);
      WrittenAfter(c, w);
      GoesTrans(c, [Transfer], TransferOne(c, w), Transfers(|c.out| - w - 1), WrittenConn(c, w), n);
    }
  }

  /** The connection after everything queued for it has reached the client. */
  function Served(c: Conn): Conn {
    c.(newQ := [], out := c.newQ, outstanding := c.outstanding + Elements(c.newQ),
       log := c.log.(got := c.log.got + c.newQ, written := c.log.written + c.newQ))
  }

  lemma QueuedIsNew(c: Conn, n: nat)
    requires Inv(c, n) && c.pc.Select?
    ensures Distinct(c.newQ) && forall k :: 0 <= k < |c.newQ| ==> c.newQ[k] !in c.outstanding
  {
    QueuedOnce(c, n);
    forall k | 0 <= k < |c.newQ| ensures c.newQ[k] !in c.outstanding {
      assert Accounts(c, c.newQ[k]);
      assert c.newQ[k] in multiset(c.newQ);
    }
  }

  /** The write is done and the select is next. */
  lemma WriteEnds(c: Conn, n: nat)
    requires c.pc == Write(0)
    ensures Goes(c, Transfers(|c.out|) + [WriteDone],
                 c.(pc := Select, log := c.log.(written := c.log.written + c.out)), n)
  {
    BatchIsWritten(c, 0, n);
    var x := c.(pc := Write(|c.out|), log := c.log.(written := c.log.written + c.out));
    assert c.out[0..] == c.out;
    GoesOne(x, WriteDone, n);
    GoesTrans(c, Transfers(|c.out|), x, [WriteDone], Next(x, WriteDone, n), n);
  }

  /** The first receive, and what the batch then is. */
  lemma FirstReceive(c: Conn, n: nat)
    requires c.pc.Select? && c.newQ != []
    ensures var r := c.(pc := Received(c.newQ[0]), newQ := c.newQ[1..], out := [],
                        log := c.log.(got := c.log.got + [c.newQ[0]]));
      && Goes(c, [TakeNew], r, n)
      && BatchedConn(r, c.newQ[0]) ==
         c.(pc := Write(0), newQ := [], out := c.newQ, outstanding := c.outstanding + Elements(c.newQ),
            log := c.log.(got := c.log.got + c.newQ))
  {
    var q := c.newQ;
    GoesOne(c, TakeNew, n);
    ElementsPop(q);
    assert [] + [q[0]] + q[1..] == q;
    assert c.log.got + [q[0]] + q[1..] == c.log.got + q;
    assert c.outstanding + {q[0]} + Elements(q[1..]) == c.outstanding + Elements(q);
  }

  /** Delivery: a connection in its select with blocks queued can put exactly these blocks
      on the wire, in order, and is back in its select with exactly these outstanding in
      addition, and nothing else changed. */
  lemma QueueIsServed(c: Conn, n: nat)
    requires Inv(c, n) && c.pc.Select? && c.newQ != []
    ensures Goes(c, ServeSteps(|c.newQ|), Served(c), n)
  {
    var q := c.newQ;
    var r := c.(pc := Received(q[0]), newQ := q[1..], out := [], log := c.log.(got := c.log.got + [q[0]]));
    QueuedIsNew(c, n);
    FirstReceive(c, n);
    assert [q[0]] + q[1..] == q;
    QueueIsBatched(r, q[0], n);
    var w := BatchedConn(r, q[0]);
    WriteEnds(w, n);
    GoesTrans(r, Rounds(|q|), w, Transfers(|q|) + [WriteDone], Served(c), n);
    GoesTrans(c, [TakeNew], r, Rounds(|q|) + (Transfers(|q|) + [WriteDone]), Served(c), n);
  }

  // ---- Returns --------------------------------------------------------------------

  /** Handle a returned index whose unref leaves `refs` references. */
  function ReturnSteps(refs: nat): seq<Step> {
    [TakeOld, Decrement(refs)] + (if refs == 0 then [ClearStatus] else [])
  }

  /** A returned block that is outstanding is released, and the connection goes on. */
  lemma ReturnIsHandled(c: Conn, b: nat, refs: nat, n: nat)
    requires c.pc.Select? && c.oldQ != [] && c.oldQ[0] == b + 1 && b < n && b in c.outstanding
    ensures Goes(c, ReturnSteps(refs),
                 c.(oldQ := c.oldQ[1..], outstanding := c.outstanding - {b},
                    log := c.log.(released := c.log.released + multiset{b})), n)
  {
    var d := Next(Next(c, TakeOld, n), Decrement(refs), n);
    GoesTwo(c, TakeOld, Decrement(refs), n);
    if refs == 0 {
      GoesOne(d, ClearStatus, n);
      GoesTrans(c, [TakeOld, Decrement(refs)], d, [ClearStatus], Next(d, ClearStatus, n), n);
    } else {
      assert ReturnSteps(refs) == [TakeOld, Decrement(refs)];
    }
  }

  /** A valid index from the client is queued for the loop, whatever the loop is doing. */
  lemma IndexIsPassed(c: Conn, num: nat, n: nat)
    requires c.reader.Reading? && !SockClosed(c.pc) && !c.oldClosed && |c.oldQ| < n && num < n
    ensures Goes(c, [ReadIndex(num), PassIndex],
                 c.(oldQ := c.oldQ + [num + 1], log := c.log.(passed := c.log.passed + [num])), n)
  {
    GoesTwo(c, ReadIndex(num), PassIndex, n);
  }

  /** An index out of range ends the reader: it is not passed on, and oldBlocks is closed. */
  lemma BadIndexEndsReading(c: Conn, num: nat, n: nat)
    requires c.reader.Reading? && !SockClosed(c.pc) && !c.oldClosed && num >= n
    ensures Goes(c, [ReadIndex(num), CloseOld],
                 c.(reader := Exited, oldClosed := true, log := c.log.(readEnding := BadIndex)), n)
  {
    GoesTwo(c, ReadIndex(num), CloseOld, n);
  }

  /** A TLV from the client is ignored. */
  lemma TlvIsIgnored(c: Conn, n: nat)
    requires c.reader.Reading? && !SockClosed(c.pc)
    ensures Goes(c, [ReadTlv], c, n)
  {
    GoesOne(c, ReadTlv, n);
  }

  /** The client sends back q, and each index is handled; `refs` says what each unref leaves. */
  function GiveBack(q: seq<nat>, refs: nat -> nat): seq<Step> {
    if q == [] then [] else ([ReadIndex(q[0]), PassIndex] + ReturnSteps(refs(q[0]))) + GiveBack(q[1..], refs)
  }

  function GivenBack(c: Conn, q: seq<nat>): Conn {
    c.(outstanding := c.outstanding - Elements(q),
       log := c.log.(passed := c.log.passed + q, released := c.log.released + multiset(q)))
  }

  lemma OneGivenBack(c: Conn, b: nat, refs: nat, n: nat)
    requires c.pc.Select? && c.reader.Reading? && !c.oldClosed && c.oldQ == [] && b < n && b in c.outstanding
    ensures Goes(c, [ReadIndex(b), PassIndex] + ReturnSteps(refs), GivenBack(c, [b]), n)
  {
    var d := c.(oldQ := [b + 1], log := c.log.(passed := c.log.passed + [b]));
    IndexIsPassed(c, b, n);
    assert c.oldQ + [b + 1] == [b + 1];
    ReturnIsHandled(d, b, refs, n);
    assert d.oldQ[1..] == [] && Elements([b]) == {b} && multiset([b]) == multiset{b};
    GoesTrans(c, [ReadIndex(b), PassIndex], d, ReturnSteps(refs), GivenBack(c, [b]), n);
  }

  lemma GivenBackPop(c: Conn, q: seq<nat>)
    requires q != []
    ensures GivenBack(GivenBack(c, [q[0]]), q[1..]) == GivenBack(c, q)
  {
    ElementsPop(q);
    PopMultiset(q);
    assert Elements([q[0]]) == {q[0]} && multiset([q[0]]) == multiset{q[0]};
    assert c.log.passed + [q[0]] + q[1..] == c.log.passed + q;
    assert c.outstanding - {q[0]} - Elements(q[1..]) == c.outstanding - Elements(q);
    assert c.log.released + multiset{q[0]} + multiset(q[1..]) == c.log.released + multiset(q);
  }

  lemma {:induction false} ReturnsAreHandled(c: Conn, q: seq<nat>, refs: nat -> nat, n: nat)
    requires c.pc.Select? && c.reader.Reading? && !c.oldClosed && c.oldQ == [] && Distinct(q)
    requires forall k :: 0 <= k < |q| ==> q[k] < n && q[k] in c.outstanding
    ensures Goes(c, GiveBack(q, refs), GivenBack(c, q), n)
    decreases |q|
  {
    if q == [] {
      assert c.log.passed + q == c.log.passed && c.outstanding - Elements(q) == c.outstanding;
      assert GivenBack(c, q) == c;
    } else {
      var d := GivenBack(c, [q[0]]);
      OneGivenBack(c, q[0], refs(q[0]), n);
      assert forall k :: 0 < k < |q| ==> q[k] in d.outstanding;
      ReturnsAreHandled(d, q[1..], refs, n);
      GivenBackPop(c, q);
      GoesTrans(c, [ReadIndex(q[0]), PassIndex] + ReturnSteps(refs(q[0])), d, GiveBack(q[1..], refs), GivenBack(c, q), n);
    }
  }

  /** The whole round trip: the queued blocks go to the client, the client returns them, and
      the connection is in its select again with the same blocks outstanding as before,
      every one of the queued blocks having been released once. */
  lemma RoundTrip(c: Conn, refs: nat -> nat, n: nat)
    requires Inv(c, n) && c.pc.Select? && c.reader.Reading? && c.oldQ == [] && c.newQ != []
    ensures var d := GivenBack(Served(c), c.newQ);
      && Goes(c, ServeSteps(|c.newQ|) + GiveBack(c.newQ, refs), d, n)
      && d.pc.Select? && d.outstanding == c.outstanding && d.newQ == []
      && d.log.released == c.log.released + multiset(c.newQ)
  {
    QueueIsServed(c, n);
    QueuedIsNew(c, n);
    ReturnsAreHandled(Served(c), c.newQ, refs, n);
    GoesTrans(c, ServeSteps(|c.newQ|), Served(c), GiveBack(c.newQ, refs), GivenBack(Served(c), c.newQ), n);
  }

  // ---- The same on the socket --------------------------------------------------------

  /** The steps as actions of connection i. */
  function OnConn(i: nat, steps: seq<Step>): seq<Action> {
    if steps == [] then [] else [ConnStep(i, steps[0])] + OnConn(i, steps[1..])
  }

  predicate Local(a: Step) { !a.Decrement? && !a.ClearStatus? }

  lemma {:induction false} LocalSteps(s: Socket, i: nat, steps: seq<Step>, d: Conn)
    requires i < |s.conns| && Goes(s.conns[i], steps, d, s.n) && forall k :: 0 <= k < |steps| ==> Local(steps[k])
    ensures Runs(s, OnConn(i, steps), s.(conns := s.conns[i := d]))
    decreases |steps|
  {
    if steps == [] {
      assert s.conns[i := d] == s.conns;
    } else {
      var c := Next(s.conns[i], steps[0], s.n);
      var t := s.(conns := s.conns[i := c]);
      assert Local(steps[0]);
      assert Apply(s, ConnStep(i, steps[0])) == t;
      LocalSteps(t, i, steps[1..], d);
      assert t.conns[i := d] == s.conns[i := d];
      RunsOn(s, ConnStep(i, steps[0]), t, OnConn(i, steps[1..]), s.(conns := s.conns[i := d]));
    }
  }

  lemma {:induction false} RoundsAreLocal(k: nat)
    ensures forall j :: 0 <= j < |Rounds(k)| ==> Local(Rounds(k)[j])
    ensures forall j :: 0 <= j < |Transfers(k)| ==> Local(Transfers(k)[j])
  {
    if k > 0 {
      RoundsAreLocal(k - 1);
    }
  }

  /** Delivery on the socket: a connection in its select serves its queue without touching
      anything else. */
  lemma QueueIsDelivered(s: Socket, i: nat)
    requires Reachable(s) && i < |s.conns| && s.conns[i].pc.Select? && s.conns[i].newQ != []
    ensures Runs(s, OnConn(i, ServeSteps(|s.conns[i].newQ|)), s.(conns := s.conns[i := Served(s.conns[i])]))
  {
    ReachableInv(s);
    var c := s.conns[i];
    assert Inv(c, s.n);
    QueueIsServed(c, s.n);
    RoundsAreLocal(|c.newQ|);
    LocalSteps(s, i, ServeSteps(|c.newQ|), Served(c));
  }

  /** The socket after connection i has handled the return of b. */
  function Released(s: Socket, i: nat, b: nat): Socket
    requires i < |s.conns| && s.conns[i].oldQ != [] && b < |s.counts| && b < |s.status| && b < |s.hist.cleared|
  {
    var c, last := s.conns[i], s.counts[b] == 1;
    s.(counts := s.counts[b := s.counts[b] - 1],
       status := if last then s.status[b := false] else s.status,
       hist := if last then s.hist.(cleared := s.hist.cleared[b := s.hist.cleared[b] + 1]) else s.hist,
       conns := s.conns[i := c.(oldQ := c.oldQ[1..], outstanding := c.outstanding - {b},
                                log := c.log.(released := c.log.released + multiset{b}))])
  }

  /** Release on the socket: the return of an outstanding block takes away one reference, and
      the last one gives the block back to the kernel; the connection goes on. */
  lemma ReturnReleases(s: Socket, i: nat, b: nat)
    requires Reachable(s) && i < |s.conns| && s.conns[i].pc.Select?
    requires s.conns[i].oldQ != [] && s.conns[i].oldQ[0] == b + 1 && b in s.conns[i].outstanding
    ensures b < s.n == |s.counts| == |s.status| == |s.hist.cleared| && s.counts[b] >= 1
    ensures Runs(s, OnConn(i, ReturnSteps(s.counts[b] - 1)), Released(s, i, b))
  {
    OutstandingCounts(s, i, b);
    ReturnRuns(s, i, b, s.counts[b] - 1);
  }

  lemma OutstandingCounts(s: Socket, i: nat, b: nat)
    requires Reachable(s) && i < |s.conns| && s.conns[i].pc.Select? && b in s.conns[i].outstanding
    ensures Shape(s) && b < s.n && s.counts[b] >= 1
  {
    ReachableInv(s);
    assert Inv(s.conns[i], s.n) && BlockInv(s, b);
    TotalAtLeast(s.conns, i, b);
  }

  lemma ReturnRuns(s: Socket, i: nat, b: nat, refs: nat)
    requires Shape(s) && i < |s.conns| && s.conns[i].pc.Select? && b < s.n && refs == s.counts[b] - 1
    requires s.conns[i].oldQ != [] && s.conns[i].oldQ[0] == b + 1 && b in s.conns[i].outstanding
    ensures Runs(s, OnConn(i, ReturnSteps(refs)), Released(s, i, b))
  {
    var t := Apply(s, ConnStep(i, TakeOld));
    assert t.conns[i].pc == Unref(b, ToSelect);
    var u := Apply(t, ConnStep(i, Decrement(refs)));
    var tail := if refs == 0 then [ConnStep(i, ClearStatus)] else [];
    var last := if refs == 0 then Apply(u, ConnStep(i, ClearStatus)) else u;
    ReleasedState(s, i, b, t, u, last);
    if refs == 0 {
      RunsOn(u, ConnStep(i, ClearStatus), last, [], last);
      assert [ConnStep(i, ClearStatus)] + [] == tail;
    }
    RunsOn(t, ConnStep(i, Decrement(refs)), u, tail, last);
    RunsOn(s, ConnStep(i, TakeOld), t, [ConnStep(i, Decrement(refs))] + tail, last);
    OnConnReturn(i, refs);
  }

  lemma OnConnReturn(i: nat, refs: nat)
    ensures OnConn(i, ReturnSteps(refs)) ==
      [ConnStep(i, TakeOld)] + ([ConnStep(i, Decrement(refs))] + (if refs == 0 then [ConnStep(i, ClearStatus)] else []))
  {
    var tail := if refs == 0 then [ClearStatus] else [];
    var rest := [Decrement(refs)] + tail;
    assert ReturnSteps(refs)[1..] == rest && rest[1..] == tail && (refs == 0 ==> tail[1..] == []);
    assert OnConn(i, tail) == if refs == 0 then [ConnStep(i, ClearStatus)] else [];
    assert OnConn(i, rest) == [ConnStep(i, Decrement(refs))] + OnConn(i, tail);
    assert OnConn(i, ReturnSteps(refs)) == [ConnStep(i, TakeOld)] + OnConn(i, rest);
  }

  lemma ReleasedState(s: Socket, i: nat, b: nat, t: Socket, u: Socket, last: Socket)
    requires Shape(s) && i < |s.conns| && s.conns[i].pc.Select? && b < s.n && s.counts[b] >= 1
    requires s.conns[i].oldQ != [] && s.conns[i].oldQ[0] == b + 1 && b in s.conns[i].outstanding
    requires t == Apply(s, ConnStep(i, TakeOld)) && t.conns[i].pc == Unref(b, ToSelect)
    requires u == Apply(t, ConnStep(i, Decrement(s.counts[b] - 1)))
    requires last == if s.counts[b] == 1 then Apply(u, ConnStep(i, ClearStatus)) else u
    ensures last == Released(s, i, b)
  {
    assert last.conns == Released(s, i, b).conns;
  }

  // ---- Why a connection leaves its loop --------------------------------------------

  /** Why a step ends the loop, if it does. */
  function Exit(c: Conn, a: Step): Ending {
    if a.WriteFail? then WriteFailed
    else if a.TakeOld? && c.oldQ == [] then ReaderGone
    else if a.TakeOld? && (c.oldQ[0] == 0 || c.oldQ[0] - 1 !in c.outstanding) then NotOutstanding
    else Running
  }

  /** A step from the loop ends it if and only if it is a failed write, or the receive from
      an empty and closed oldBlocks, or of an index that is not outstanding. */
  lemma LeavesLoop(c: Conn, a: Step, n: nat)
    requires Inv(c, n) && InLoop(c.pc) && CanStep(c, a, n) && (a.Decrement? ==> a.refs >= 0)
    ensures InLoop(Next(c, a, n).pc) <==> Exit(c, a).Running?
    ensures Next(c, a, n).log.ending == Exit(c, a)
    ensures Exit(c, a).ReaderGone? ==> c.oldClosed
  {
    StepInv(c, a, n);
    assert a.TakeOld? && c.oldQ != [] ==> 1 <= c.oldQ[0] <= n;
  }

  /** The client has sent b back more often than it was sent b. */
  ghost predicate OverReturned(c: Conn, b: nat) {
    multiset(c.log.passed)[b] > multiset(c.log.written)[b]
  }

  /** A reason for having left the loop. */
  ghost predicate Blamed(c: Conn) {
    && (c.log.ending.ReaderGone? ==> c.oldClosed)
    && (c.log.ending.NotOutstanding? ==> exists b: nat :: OverReturned(c, b))
  }

  lemma NotOutstandingIsOver(c: Conn, n: nat)
    requires Inv(c, n) && c.pc.Select? && c.oldQ != [] && c.oldQ[0] >= 1 && c.oldQ[0] - 1 !in c.outstanding
    ensures OverReturned(c, c.oldQ[0] - 1)
  {
    assert Accounts(c, c.oldQ[0] - 1);
    assert c.oldQ[0] in multiset(c.oldQ);
  }

  /** Outside the loop nothing is written and nothing that was read is forgotten. */
  lemma StepAfterLoop(c: Conn, a: Step, n: nat)
    requires CanStep(c, a, n) && !InLoop(c.pc)
    ensures Next(c, a, n).log.written == c.log.written && c.log.passed <= Next(c, a, n).log.passed
    ensures Next(c, a, n).log.ending == c.log.ending && (c.oldClosed ==> Next(c, a, n).oldClosed)
  {
  }

  lemma StepBlamed(c: Conn, a: Step, n: nat)
    requires Inv(c, n) && Blamed(c) && CanStep(c, a, n) && (a.Decrement? ==> a.refs >= 0)
    ensures Blamed(Next(c, a, n))
  {
    var d := Next(c, a, n);
    if InLoop(c.pc) {
      LeavesLoop(c, a, n);
      if Exit(c, a).NotOutstanding? {
        assert 1 <= c.oldQ[0];
        NotOutstandingIsOver(c, n);
        assert OverReturned(d, c.oldQ[0] - 1);
      }
    } else {
      StepAfterLoop(c, a, n);
      if c.log.ending.NotOutstanding? {
        var b: nat :| OverReturned(c, b);
        PrefixMultiset(c.log.passed, d.log.passed, b);
        assert OverReturned(d, b);
      }
    }
  }

  /** The step that made the ending what it is. */
  lemma StepEnding(c: Conn, a: Step, n: nat)
    requires CanStep(c, a, n)
    ensures Next(c, a, n).log.ending.WriteFailed? ==> c.log.ending.WriteFailed? || a.WriteFail?
    ensures Next(c, a, n).log.readEnding.ReadFailed? ==> c.log.readEnding.ReadFailed? || a.ReadFail?
    ensures Next(c, a, n).log.readEnding.BadIndex? ==> c.log.readEnding.BadIndex? || (a.ReadIndex? && a.num >= n)
  {
  }

  /** What the actions of a run say about the endings of connection i. */
  ghost predicate Explained(s: Socket, acts: seq<Action>, i: nat) {
    i < |s.conns| ==>
      && (s.conns[i].log.ending.WriteFailed? ==> ConnStep(i, WriteFail) in acts)
      && (s.conns[i].log.readEnding.ReadFailed? ==> ConnStep(i, ReadFail) in acts)
      && (s.conns[i].log.readEnding.BadIndex? ==> exists num: nat :: num >= s.n && ConnStep(i, ReadIndex(num)) in acts)
      && Blamed(s.conns[i])
  }

  /** Actions of others leave the connection's logs and oldBlocks alone. */
  lemma OthersExplain(s: Socket, a: Action, i: nat)
    requires Enabled(s, a) && !(a.ConnStep? && a.i == i)
    ensures Apply(s, a).n == s.n && |Apply(s, a).conns| >= |s.conns|
    ensures i < |s.conns| ==>
      Apply(s, a).conns[i].log == s.conns[i].log && Apply(s, a).conns[i].oldClosed == s.conns[i].oldClosed
    ensures |s.conns| <= i < |Apply(s, a).conns| ==> Apply(s, a).conns[i] == NewConn(s.hist.dispatched)
  {
  }

  lemma ActionExplained(s: Socket, acts: seq<Action>, a: Action, i: nat)
    requires SocketInv(s) && Explained(s, acts, i) && Enabled(s, a)
    ensures Explained(Apply(s, a), acts + [a], i)
  {
    if a.ConnStep? && a.i == i {
      ConnStepShape(s, i, a.step);
      assert Inv(s.conns[i], s.n);
      if a.step.Decrement? {
        UnrefPositive(s, i);
      }
      StepBlamed(s.conns[i], a.step, s.n);
      StepEnding(s.conns[i], a.step, s.n);
      assert a in acts + [a] && a == ConnStep(i, a.step);
      OwnExplained(s, acts, a, i);
    } else {
      OthersExplain(s, a, i);
      WiderExplained(s, acts, Apply(s, a), a, i);
    }
  }

  lemma OwnExplained(s: Socket, acts: seq<Action>, a: Action, i: nat)
    requires Explained(s, acts, i) && Enabled(s, a) && a.ConnStep? && a.i == i && Apply(s, a).n == s.n
    ensures i < |Apply(s, a).conns| && Apply(s, a).conns[i].log.readEnding.BadIndex? ==>
      exists num: nat :: num >= s.n && ConnStep(i, ReadIndex(num)) in acts + [a]
  {
    var t := Apply(s, a);
    if i < |t.conns| && t.conns[i].log.readEnding.BadIndex? {
      StepEnding(s.conns[i], a.step, s.n);
      if s.conns[i].log.readEnding.BadIndex? {
        var num: nat :| num >= s.n && ConnStep(i, ReadIndex(num)) in acts;
        assert ConnStep(i, ReadIndex(num)) in acts + [a];
      } else {
        assert ConnStep(i, ReadIndex(a.step.num)) in acts + [a];
      }
    }
  }

  lemma WiderExplained(s: Socket, acts: seq<Action>, t: Socket, a: Action, i: nat)
    requires Explained(s, acts, i) && t.n == s.n && |t.conns| >= |s.conns|
    requires i < |s.conns| ==> t.conns[i].log == s.conns[i].log && t.conns[i].oldClosed == s.conns[i].oldClosed
    requires |s.conns| <= i < |t.conns| ==> t.conns[i] == NewConn(s.hist.dispatched)
    ensures Explained(t, acts + [a], i)
  {
    if i < |s.conns| {
      if s.conns[i].log.ending.NotOutstanding? {
        var b: nat :| OverReturned(s.conns[i], b);
        assert OverReturned(t.conns[i], b);
      }
      if s.conns[i].log.readEnding.BadIndex? {
        var num: nat :| num >= s.n && ConnStep(i, ReadIndex(num)) in acts;
        assert ConnStep(i, ReadIndex(num)) in acts + [a];
      }
    }
  }

  lemma {:induction false} RunExplained(s: Socket, before: seq<Action>, acts: seq<Action>, t: Socket, i: nat)
    requires SocketInv(s) && Explained(s, before, i) && Runs(s, acts, t)
    ensures Explained(t, before + acts, i)
    decreases |acts|
  {
    if acts == [] {
      assert before + acts == before;
    } else {
      ActionExplained(s, before, acts[0], i);
      ActionKeeps(s, acts[0]);
      RunExplained(Apply(s, acts[0]), before + [acts[0]], acts[1..], t, i);
      assert before + [acts[0]] + acts[1..] == before + acts;
    }
  }

  /** The exit law: in every run, a connection has left its loop only if a write to its client
      failed, a read from it failed, it sent an index out of range, or it sent some block
      back more often than it was sent that block. */
  lemma ExitLaw(n: Size, acts: seq<Action>, s: Socket, i: nat)
    requires Runs(Init(n), acts, s) && i < |s.conns| && !InLoop(s.conns[i].pc)
    ensures
      || ConnStep(i, WriteFail) in acts
      || ConnStep(i, ReadFail) in acts
      || (exists num: nat :: num >= s.n && ConnStep(i, ReadIndex(num)) in acts)
      || (exists b: nat :: OverReturned(s.conns[i], b))
  {
    InitInv(n);
    RunExplained(Init(n), [], acts, s, i);
    assert [] + acts == acts;
    RunKeeps(Init(n), acts, s);
    assert Inv(s.conns[i], s.n);
  }

  // ---- The producer -------------------------------------------------------------------

  /** The socket after the producer has sent on the block it polls. */
  function SentOn(s: Socket): Socket
    requires s.idx < |s.counts| && s.idx < |s.hist.taken|
  {
    s.(counts := s.counts[s.idx := 1], queue := s.queue + [s.idx],
       idx := if s.idx + 1 == s.n then 0 else s.idx + 1,
       hist := s.hist.(taken := s.hist.taken[s.idx := s.hist.taken[s.idx] + 1], sent := s.hist.sent + 1))
  }

  /** If the block is ready, the poll takes it and puts it at the end of s.newBlocks, and the
      producer polls the next one; if not, the poll changes nothing. */
  lemma PollTakesReady(s: Socket)
    requires SocketInv(s) && s.producer.PollCount?
    ensures Ready(s, s.idx) ==> Runs(s, [LoadCount, LoadStatus, TakeRef, SendBlock], SentOn(s))
    ensures !Ready(s, s.idx) ==> Runs(s, if s.counts[s.idx] == 0 then [LoadCount, LoadStatus] else [LoadCount], s)
  {
    var p := s.(producer := PollStatus);
    if Ready(s, s.idx) {
      var t := s.(producer := Take);
      var h := TakeBlock(t);
      TakesAndSends(s, t, h);
      RunsOn(t, TakeRef, h, [SendBlock], SentOn(s));
      RunsOn(p, LoadStatus, t, [TakeRef] + [SendBlock], SentOn(s));
      RunsOn(s, LoadCount, p, [LoadStatus] + ([TakeRef] + [SendBlock]), SentOn(s));
      assert [LoadCount, LoadStatus, TakeRef, SendBlock] == [LoadCount] + ([LoadStatus] + ([TakeRef] + [SendBlock]));
    } else {
      PollFindsNothing(s, p);
    }
  }

  lemma PollFindsNothing(s: Socket, p: Socket)
    requires SocketInv(s) && s.producer.PollCount? && !Ready(s, s.idx) && p == s.(producer := PollStatus)
    ensures Runs(s, if s.counts[s.idx] == 0 then [LoadCount, LoadStatus] else [LoadCount], s)
  {
    RunsOn(s, LoadCount, Apply(s, LoadCount), [], Apply(s, LoadCount));
    if s.counts[s.idx] == 0 {
      RunsOn(p, LoadStatus, s, [], s);
      RunsOn(s, LoadCount, p, [LoadStatus] + [], s);
      assert [LoadCount] + ([LoadStatus] + []) == [LoadCount, LoadStatus];
    } else {
      assert [LoadCount] + [] == [LoadCount];
    }
  }

  lemma TakesAndSends(s: Socket, t: Socket, h: Socket)
    requires SocketInv(s) && s.producer.PollCount? && Ready(s, s.idx) && t == s.(producer := Take) && h == TakeBlock(t)
    ensures Runs(h, [SendBlock], SentOn(s))
  {
    PolledInv(s);
    TakeKeeps(t);
    QueueFits(h);
    NextIndexOf(s.idx, s.n);
    RunsOn(h, SendBlock, SendOn(h), [], SendOn(h));
    assert [SendBlock] + [] == [SendBlock];
  }

  lemma PolledInv(s: Socket)
    requires SocketInv(s) && s.producer.PollCount? && Ready(s, s.idx)
    ensures SocketInv(s.(producer := Take))
  {
    ActionKeeps(s, LoadCount);
    ActionKeeps(s.(producer := PollStatus), LoadStatus);
  }

  lemma NextIndexOf(idx: nat, n: Size)
    requires idx < n
    ensures (idx + 1) % n == if idx + 1 == n then 0 else idx + 1
  {
  }

  /** How far the producer is with the block it polls. */
  function Stage(p: ProducerPc): nat {
    match p
    case PollCount => 0
    case PollStatus => 1
    case Take => 2
    case Hold => 3
  }

  /** The steps that the producer makes during a run. */
  function ProducerSteps(acts: seq<Action>): nat {
    if acts == [] then 0
    else (if acts[0].LoadCount? || acts[0].LoadStatus? || acts[0].TakeRef? then 1 else 0) + ProducerSteps(acts[1..])
  }

  lemma StageStep(s: Socket, a: Action)
    requires Enabled(s, a) && !s.producer.Hold? && Ready(s, s.idx)
    ensures Apply(s, a).idx == s.idx
    ensures Stage(Apply(s, a).producer) == Stage(s.producer) + ProducerSteps([a])
  {
  }

  /** Whatever the others do meanwhile, a ready block with no clear to come is taken by the
      producer's next three steps. */
  lemma {:induction false} ReadyIsTaken(s: Socket, acts: seq<Action>, t: Socket)
    requires SocketInv(s) && !s.producer.Hold? && Ready(s, s.idx) && PendingClears(s, s.idx) == 0
    requires Runs(s, acts, t) && Stage(s.producer) + ProducerSteps(acts) <= 3 && SendBlock !in acts
    ensures t.idx == s.idx && Stage(t.producer) == Stage(s.producer) + ProducerSteps(acts)
    decreases |acts|
  {
    if acts != [] {
      var a := acts[0];
      StageStep(s, a);
      assert ProducerSteps(acts) == ProducerSteps([a]) + ProducerSteps(acts[1..]);
      ActionKeeps(s, a);
      if a.TakeRef? {
        HoldStays(Apply(s, a), acts[1..], t);
      } else {
        ReadyStep(s, a, s.idx);
        if Clears(s, a, s.idx) {
          ClearIsPending(s, a, s.idx);
        }
        ReadyIsTaken(Apply(s, a), acts[1..], t);
      }
    }
  }

  lemma {:induction false} HoldStays(s: Socket, acts: seq<Action>, t: Socket)
    requires s.producer.Hold? && Runs(s, acts, t) && SendBlock !in acts
    ensures t.producer.Hold? && t.idx == s.idx && ProducerSteps(acts) == 0
    decreases |acts|
  {
    if acts != [] {
      HoldStep(s, acts[0]);
      HoldStays(Apply(s, acts[0]), acts[1..], t);
    }
  }

  lemma HoldStep(s: Socket, a: Action)
    requires s.producer.Hold? && Enabled(s, a) && !a.SendBlock?
    ensures Apply(s, a).producer.Hold? && Apply(s, a).idx == s.idx && ProducerSteps([a]) == 0
  {
  }
}
