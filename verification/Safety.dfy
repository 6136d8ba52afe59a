/** What holds in every reachable state of a socket, and over every run. */
module Safety {
  import opened Connection
  import opened ConnectionProof
  import opened Socket
  import opened SocketProof

  /** No goroutine of the daemon ever panics or exits: no count goes below zero, no
      block is received twice, no nil block is received, nothing is sent on or closed
      on a closed channel, and no block is dropped by the broadcast. */
  lemma NeverCrashes(s: Socket)
    requires Reachable(s)
    ensures !s.disp.DispatcherCrashed? && s.hist.drops == 0
    ensures forall i :: 0 <= i < |s.conns| ==> !s.conns[i].pc.Crashed? && !s.conns[i].reader.ReaderCrashed?
  {
    ReachableInv(s);
    forall i | 0 <= i < |s.conns| ensures !s.conns[i].pc.Crashed? && !s.conns[i].reader.ReaderCrashed? {
      assert Inv(s.conns[i], s.n);
    }
  }

  // ---- Counting -----------------------------------------------------------

  /** Connections whose goroutine has not finished. */
  function Live(cs: seq<Conn>): nat {
    if cs == [] then 0 else Live(cs[..|cs| - 1]) + (if cs[|cs| - 1].pc.Done? then 0 else 1)
  }

  /** All but the connection `to`, if it is one of them, have at most one reference to b
      while they live, and none when they are done. */
  ghost predicate Limited(cs: seq<Conn>, b: nat, to: int) {
    forall i :: 0 <= i < |cs| ==>
      Refs(cs[i], b) + (if i == to then 1 else 0) <= (if cs[i].pc.Done? then 0 else 1)
  }

  lemma {:induction false} TotalLimited(cs: seq<Conn>, b: nat, to: int)
    requires Limited(cs, b, to) && to < |cs|
    ensures TotalRefs(cs, b) + (if 0 <= to then 1 else 0) <= Live(cs)
  {
    if cs != [] {
      var m := |cs| - 1;
      assert forall i :: 0 <= i < m ==> cs[..m][i] == cs[i];
      if to == m {
        TotalLimited(cs[..m], b, -1);
      } else {
        TotalLimited(cs[..m], b, to);
      }
    }
  }

  lemma DoneHasNone(c: Conn, n: nat, b: nat)
    requires Inv(c, n)
    ensures Refs(c, b) <= (if c.pc.Done? then 0 else 1)
  {
    assert Accounts(c, b);
  }

  /** Reference conservation: the count of a block is its number of holders, so it is
      never negative and never more than one above the number of live connections. */
  lemma CountIsHolders(s: Socket, b: nat)
    requires Reachable(s) && b < s.n
    ensures |s.counts| == s.n
    ensures s.counts[b] == Base(s, b) + Handover(s, b) + TotalRefs(s.conns, b)
    ensures Base(s, b) <= 1 && forall i :: 0 <= i < |s.conns| ==> Refs(s.conns[i], b) <= 1
    ensures 0 <= s.counts[b] <= 1 + Live(s.conns)
  {
    ReachableInv(s);
    assert BlockInv(s, b);
    var to: int := if s.disp.Sending? && s.disp.b == b then s.disp.to else -1;
    forall i | 0 <= i < |s.conns|
      ensures Refs(s.conns[i], b) + (if i == to then 1 else 0) <= (if s.conns[i].pc.Done? then 0 else 1)
      ensures Refs(s.conns[i], b) <= 1
    {
      assert Inv(s.conns[i], s.n);
      DoneHasNone(s.conns[i], s.n, b);
      if i == to {
        SendToFits(s);
      }
    }
    if s.disp.Sending? {
      SendToFits(s);
    }
    TotalLimited(s.conns, b, to);
  }

  // ---- Delivery -----------------------------------------------------------

  /** The blocks that the dispatcher receives during a run. */
  function Dispatches(s: Socket, acts: seq<Action>): seq<nat>
    decreases |acts|
  {
    if acts == [] || !Enabled(s, acts[0]) then []
    else (if acts[0].Dispatch? then [s.queue[0]] else []) + Dispatches(Apply(s, acts[0]), acts[1..])
  }

  lemma DispatchCounts(s: Socket, a: Action)
    requires Enabled(s, a)
    ensures Apply(s, a).n == s.n
    ensures Apply(s, a).hist.dispatched == s.hist.dispatched + (if a.Dispatch? then 1 else 0)
  {
  }

  lemma {:induction false} DispatchLength(s: Socket, acts: seq<Action>, t: Socket)
    requires Runs(s, acts, t)
    ensures |Dispatches(s, acts)| == t.hist.dispatched - s.hist.dispatched && t.n == s.n
    decreases |acts|
  {
    if acts != [] {
      DispatchCounts(s, acts[0]);
      DispatchLength(Apply(s, acts[0]), acts[1..], t);
    }
  }

  lemma DispatchedNow(s: Socket)
    requires Reachable(s) && s.queue != []
    ensures s.queue[0] == s.hist.dispatched % s.n
  {
    ReachableInv(s);
  }

  /** The first dispatch of a run and the later ones. */
  lemma {:induction false} DispatchesStep(s: Socket, acts: seq<Action>, k: nat)
    requires k < |Dispatches(s, acts)|
    ensures acts != [] && Enabled(s, acts[0])
    ensures var rest := Dispatches(Apply(s, acts[0]), acts[1..]);
      if !acts[0].Dispatch? then k < |rest| && Dispatches(s, acts)[k] == rest[k]
      else if k == 0 then Dispatches(s, acts)[k] == s.queue[0]
      else k - 1 < |rest| && Dispatches(s, acts)[k] == rest[k - 1]
  {
  }

  /** Dispatch number k of a run comes first, or is one of those after the first action. */
  lemma NextDispatch(s: Socket, acts: seq<Action>, k: nat) returns (t: Socket, j: int)
    requires Reachable(s) && k < |Dispatches(s, acts)|
    ensures acts != [] && Reachable(t) && t.n == s.n && t.hist.dispatched + j == s.hist.dispatched + k
    ensures if j < 0 then k == 0 && Dispatches(s, acts)[k] == s.hist.dispatched % s.n
            else j < |Dispatches(t, acts[1..])| && Dispatches(s, acts)[k] == Dispatches(t, acts[1..])[j]
  {
    DispatchesStep(s, acts, k);
    ReachableStep(s, acts[0]);
    DispatchCounts(s, acts[0]);
    t, j := Apply(s, acts[0]), if acts[0].Dispatch? then k - 1 else k;
    if j < 0 {
      DispatchedNow(s);
    }
  }

  lemma {:induction false} DispatchAt(s: Socket, acts: seq<Action>, k: nat, x: nat, n: Size)
    requires Reachable(s) && k < |Dispatches(s, acts)| && x == s.hist.dispatched + k && n == s.n
    ensures Dispatches(s, acts)[k] == x % n
    decreases |acts|
  {
    var t, j := NextDispatch(s, acts, k);
    if j >= 0 {
      DispatchAt(t, acts[1..], j, x, n);
    }
  }

  /** The blocks dispatched during a run go round in the order of the ring. */
  lemma DispatchOrder(s: Socket, acts: seq<Action>, k: nat)
    requires Reachable(s) && k < |Dispatches(s, acts)|
    ensures Dispatches(s, acts)[k] == (s.hist.dispatched + k) % s.n
  {
    DispatchAt(s, acts, k, s.hist.dispatched + k, s.n);
  }

  /** What a connection has dequeued, followed by what is still queued for it. */
  function Stream(c: Conn): seq<nat> { c.log.got + c.newQ }

  /** Gapless delivery: over any run the dispatched blocks go round 0, 1, ..., n-1; the
      stream of every connection is the slice of them that starts when it joined; and
      while it is registered the slice reaches up to the last dispatch, less the block
      that the dispatcher is still about to send it. */
  lemma GaplessDelivery(n: Size, acts: seq<Action>, s: Socket, i: nat)
    requires Runs(Init(n), acts, s) && i < |s.conns|
    ensures var all := Dispatches(Init(n), acts); var c := s.conns[i];
      && (forall k: nat :: k < |all| ==> all[k] == k % n)
      && c.log.joined + |Stream(c)| <= |all|
      && Stream(c) == all[c.log.joined..c.log.joined + |Stream(c)|]
      && c.log.written <= c.log.got
      && (i in s.current ==> c.log.joined + |Stream(c)| == |all| - (if Owed(s.disp, i) then 1 else 0))
  {
    var all, c := Dispatches(Init(n), acts), s.conns[i];
    InitInv(n);
    assert Runs(Init(n), [], Init(n)) && Reachable(Init(n));
    DispatchLength(Init(n), acts, s);
    forall k: nat | k < |all| ensures all[k] == k % n {
      DispatchOrder(Init(n), acts, k);
    }
    RunKeeps(Init(n), acts, s);
    assert PositionAt(s, i);
    assert Inv(c, s.n);
    forall k: nat | k < |Stream(c)| ensures Stream(c)[k] == all[c.log.joined + k] {
      if k >= |c.log.got| {
        assert c.newQ[k - |c.log.got|] == (c.log.joined + |c.log.got| + (k - |c.log.got|)) % s.n;
      }
    }
  }

  /** No drops: whenever the dispatcher is about to send, the channel is open and has
      room, and the send leads to the next connection; whenever the producer is about to
      send, s.newBlocks has room, so it never blocks. */
  lemma SendsAlwaysFit(s: Socket)
    requires Reachable(s)
    ensures s.disp.Sending? ==>
      && s.disp.to < |s.conns| && !s.conns[s.disp.to].newClosed && |s.conns[s.disp.to].newQ| < s.n
      && Apply(s, SendTo).disp == Got(s.disp.b, s.disp.todo)
    ensures s.producer.Hold? ==> Enabled(s, SendBlock)
  {
    ReachableInv(s);
    if s.disp.Sending? {
      SendToFits(s);
    }
    if s.producer.Hold? {
      QueueFits(s);
    }
  }

  /** No double delivery: a dequeued block is never outstanding already, nor is a block
      queued twice or queued while it is outstanding. */
  lemma NoDoubleDelivery(s: Socket, i: nat)
    requires Reachable(s) && i < |s.conns|
    ensures var c := s.conns[i];
      && (c.pc.Received? ==> c.pc.b !in c.outstanding)
      && Distinct(c.newQ)
      && (!Sweeping(c.pc) ==> forall k :: 0 <= k < |c.newQ| ==> c.newQ[k] !in c.outstanding)
  {
    ReachableInv(s);
    var c := s.conns[i];
    assert Inv(c, s.n);
    if c.pc.Received? {
      assert Accounts(c, c.pc.b);
    }
    QueuedOnce(c, s.n);
    if !Sweeping(c.pc) {
      forall k | 0 <= k < |c.newQ| ensures c.newQ[k] !in c.outstanding {
        assert Accounts(c, c.newQ[k]);
        assert c.newQ[k] in multiset(c.newQ);
      }
    }
  }

  /** A batch lists distinct blocks, so the batching loop makes at most n rounds however
      fast the dispatcher feeds it. */
  lemma BatchIsBounded(s: Socket, i: nat)
    requires Reachable(s) && i < |s.conns|
    requires s.conns[i].pc.Received? || s.conns[i].pc.Poll? || s.conns[i].pc.Write?
    ensures Distinct(s.conns[i].out) && |s.conns[i].out| <= s.n
    ensures s.conns[i].pc.Received? ==> |s.conns[i].out| < s.n
  {
    ReachableInv(s);
    var c := s.conns[i];
    assert Inv(c, s.n);
    Pigeonhole(c.out, s.n);
    if c.pc.Received? {
      assert Accounts(c, c.pc.b);
      Pigeonhole(c.out + [c.pc.b], s.n);
    }
  }

  // ---- Exactly-once release -------------------------------------------------

  /** The blocks that connection i unrefs during a run, with multiplicity. */
  function Unrefs(s: Socket, acts: seq<Action>, i: nat): multiset<nat>
    decreases |acts|
  {
    if acts == [] || !Enabled(s, acts[0]) then multiset{}
    else
      (if acts[0].ConnStep? && acts[0].i == i && acts[0].step.Decrement?
       then multiset{s.conns[i].pc.u} else multiset{})
      + Unrefs(Apply(s, acts[0]), acts[1..], i)
  }

  /** The step dequeues a block from newBlocks. */
  predicate Dequeues(c: Conn, a: Step) {
    (a.TakeNew? || a.PollNew? || a.Drain?) && c.newQ != []
  }

  /** The blocks that connection i gets from its newBlocks during a run. */
  function Gets(s: Socket, acts: seq<Action>, i: nat): multiset<nat>
    decreases |acts|
  {
    if acts == [] || !Enabled(s, acts[0]) then multiset{}
    else
      (if acts[0].ConnStep? && acts[0].i == i && Dequeues(s.conns[i], acts[0].step)
       then multiset{s.conns[i].newQ[0]} else multiset{})
      + Gets(Apply(s, acts[0]), acts[1..], i)
  }

  function ReleasedBy(s: Socket, i: nat): multiset<nat> {
    if i < |s.conns| then s.conns[i].log.released else multiset{}
  }

  function GotBy(s: Socket, i: nat): multiset<nat> {
    if i < |s.conns| then multiset(s.conns[i].log.got) else multiset{}
  }

  lemma StepLogs(c: Conn, a: Step, n: nat)
    requires CanStep(c, a, n)
    ensures Next(c, a, n).log.released == c.log.released + (if a.Decrement? then multiset{c.pc.u} else multiset{})
    ensures Next(c, a, n).log.got == c.log.got + (if Dequeues(c, a) then [c.newQ[0]] else [])
  {
  }

  /** Only its own steps change what a connection has dequeued and released. */
  lemma OtherLogs(s: Socket, a: Action, i: nat)
    requires Enabled(s, a) && !a.ConnStep? && i < |s.conns|
    ensures i < |Apply(s, a).conns| && Apply(s, a).conns[i].log == s.conns[i].log
  {
  }

  lemma ConnLogs(s: Socket, i: nat, step: Step, j: nat)
    requires Enabled(s, ConnStep(i, step)) && j < |s.conns|
    ensures var t := StepConn(s, i, step);
      && |t.conns| == |s.conns| && t.conns[j] == (if j == i then Next(s.conns[i], step, s.n) else s.conns[j])
  {
  }

  lemma NewLogs(s: Socket, a: Action, i: nat)
    requires Enabled(s, a) && i >= |s.conns|
    ensures i < |Apply(s, a).conns| ==> Apply(s, a).conns[i] == NewConn(s.hist.dispatched)
  {
  }

  lemma ActionLogs(s: Socket, a: Action, i: nat)
    requires Enabled(s, a)
    ensures ReleasedBy(Apply(s, a), i) ==
      ReleasedBy(s, i) + (if a.ConnStep? && a.i == i && a.step.Decrement? then multiset{s.conns[i].pc.u} else multiset{})
    ensures GotBy(Apply(s, a), i) ==
      GotBy(s, i) + (if a.ConnStep? && a.i == i && Dequeues(s.conns[i], a.step) then multiset{s.conns[i].newQ[0]} else multiset{})
  {
    if i >= |s.conns| {
      NewLogs(s, a, i);
    } else if a.ConnStep? {
      ConnLogs(s, a.i, a.step, i);
      StepLogs(s.conns[a.i], a.step, s.n);
    } else {
      OtherLogs(s, a, i);
    }
  }

  lemma {:induction false} RunLogs(s: Socket, acts: seq<Action>, t: Socket, i: nat)
    requires Runs(s, acts, t)
    ensures ReleasedBy(t, i) == ReleasedBy(s, i) + Unrefs(s, acts, i)
    ensures GotBy(t, i) == GotBy(s, i) + Gets(s, acts, i)
    decreases |acts|
  {
    if acts != [] {
      ActionLogs(s, acts[0], i);
      RunLogs(Apply(s, acts[0]), acts[1..], t, i);
    }
  }

  /** Exactly-once release: over any run and for every block, a connection has unref'd
      what it got from newBlocks once each, except what it has in hand, which is at most
      one reference; when its goroutine is done nothing is left, however the loop ended
      and whatever the client had still returned. */
  lemma ExactlyOnceRelease(n: Size, acts: seq<Action>, s: Socket, i: nat, b: nat)
    requires Runs(Init(n), acts, s) && i < |s.conns|
    ensures Gets(Init(n), acts, i)[b] == Unrefs(Init(n), acts, i)[b] + InHand(s.conns[i], b)
    ensures InHand(s.conns[i], b) <= 1
    ensures s.conns[i].pc.Done? ==>
      Gets(Init(n), acts, i)[b] == Unrefs(Init(n), acts, i)[b] && Refs(s.conns[i], b) == 0
  {
    InitInv(n);
    RunKeeps(Init(n), acts, s);
    RunLogs(Init(n), acts, s, i);
    var c := s.conns[i];
    assert Inv(c, s.n);
    assert Accounts(c, b);
  }

  // ---- Broadcasts ---------------------------------------------------------------

  /** Of a connection's own steps none changes its stream. */
  lemma StepStream(c: Conn, a: Step, n: nat)
    requires CanStep(c, a, n)
    ensures Stream(Next(c, a, n)) == Stream(c)
  {
    StepLogs(c, a, n);
    assert Dequeues(c, a) ==> (c.log.got + [c.newQ[0]]) + c.newQ[1..] == c.log.got + c.newQ;
  }

  /** Up to the next dispatch, a stream grows only by the block that the connection is owed. */
  lemma StreamStep(s: Socket, a: Action, i: nat)
    requires SocketInv(s) && Enabled(s, a) && !a.Dispatch? && i < |s.conns|
    ensures var t := Apply(s, a);
      && i < |t.conns|
      && (Owed(t.disp, i) ==> Owed(s.disp, i) && t.disp.b == s.disp.b)
      && Stream(t.conns[i]) ==
           Stream(s.conns[i]) + (if Owed(s.disp, i) && !Owed(t.disp, i) then [s.disp.b] else [])
  {
    match a
    case ConnStep(j, step) =>
      ConnStepShape(s, j, step);
      if i == j {
        StepStream(s.conns[i], step, s.n);
      }
    case SendTo => SendToFits(s);
    case _ =>
  }

  lemma {:induction false} StreamRun(s: Socket, acts: seq<Action>, t: Socket, i: nat)
    requires SocketInv(s) && Runs(s, acts, t) && i < |s.conns| && t.hist.dispatched == s.hist.dispatched
    ensures i < |t.conns| && (Owed(t.disp, i) ==> Owed(s.disp, i) && t.disp.b == s.disp.b)
    ensures Stream(t.conns[i]) ==
      Stream(s.conns[i]) + (if Owed(s.disp, i) && !Owed(t.disp, i) then [s.disp.b] else [])
    decreases |acts|
  {
    if acts != [] {
      DispatchCounts(s, acts[0]);
      DispatchLength(Apply(s, acts[0]), acts[1..], t);
      StreamStep(s, acts[0], i);
      ActionKeeps(s, acts[0]);
      StreamRun(Apply(s, acts[0]), acts[1..], t, i);
    }
  }

  /** A broadcast under any interleaving: between the receive of a block and the end of
      the range, whatever producer, kernel and clients do meanwhile, each connection
      registered at the receive, and no other, gets exactly that block. */
  lemma BroadcastReachesAll(s: Socket, acts: seq<Action>, t: Socket, i: nat)
    requires Reachable(s) && Enabled(s, Dispatch) && Runs(DispatchBlock(s), acts, t) && i < |s.conns|
    requires t.hist.dispatched == s.hist.dispatched + 1 && !Owed(t.disp, i)
    ensures i < |t.conns|
    ensures Stream(t.conns[i]) == Stream(s.conns[i]) + (if i in s.current then [s.queue[0]] else [])
  {
    ReachableInv(s);
    DispatchKeeps(s);
    StreamRun(DispatchBlock(s), acts, t, i);
  }

  // ---- Channels -----------------------------------------------------------------

  /** The two channels of a connection. */
  datatype Channel = NewBlocks | OldBlocks

  /** The action closes the channel of connection i. */
  predicate Closes(s: Socket, a: Action, i: nat, ch: Channel) {
    match ch
    case NewBlocks => a.CloseNew? && s.disp.Unregistering? && s.disp.who == i
    case OldBlocks => a.ConnStep? && a.i == i && a.step.CloseOld?
  }

  /** How often the channel of connection i is closed during a run. */
  function Closings(s: Socket, acts: seq<Action>, i: nat, ch: Channel): nat
    decreases |acts|
  {
    if acts == [] || !Enabled(s, acts[0]) then 0
    else (if Closes(s, acts[0], i, ch) then 1 else 0) + Closings(Apply(s, acts[0]), acts[1..], i, ch)
  }

  predicate IsClosed(s: Socket, i: nat, ch: Channel) {
    i < |s.conns| && (if ch.NewBlocks? then s.conns[i].newClosed else s.conns[i].oldClosed)
  }

  lemma StepCloses(c: Conn, a: Step, n: nat)
    requires WellFormed(c, n) && CanStep(c, a, n)
    ensures Next(c, a, n).newClosed == c.newClosed
    ensures Next(c, a, n).oldClosed == (c.oldClosed || a.CloseOld?) && (a.CloseOld? ==> !c.oldClosed)
  {
  }

  lemma OtherCloses(s: Socket, a: Action, i: nat, ch: Channel)
    requires SocketInv(s) && Enabled(s, a) && !a.ConnStep? && i < |s.conns|
    ensures IsClosed(Apply(s, a), i, ch) <==> IsClosed(s, i, ch) || Closes(s, a, i, ch)
    ensures Closes(s, a, i, ch) ==> !IsClosed(s, i, ch)
  {
  }

  /** An action closes only an open channel. */
  lemma ActionCloses(s: Socket, a: Action, i: nat, ch: Channel)
    requires SocketInv(s) && Enabled(s, a)
    ensures IsClosed(Apply(s, a), i, ch) <==> IsClosed(s, i, ch) || Closes(s, a, i, ch)
    ensures Closes(s, a, i, ch) ==> !IsClosed(s, i, ch)
  {
    if i >= |s.conns| {
      NewLogs(s, a, i);
    } else if a.ConnStep? {
      ConnLogs(s, a.i, a.step, i);
      assert Inv(s.conns[a.i], s.n);
      StepCloses(s.conns[a.i], a.step, s.n);
    } else {
      OtherCloses(s, a, i, ch);
    }
  }

  lemma {:induction false} RunCloses(s: Socket, acts: seq<Action>, t: Socket, i: nat, ch: Channel)
    requires SocketInv(s) && Runs(s, acts, t)
    ensures (if IsClosed(t, i, ch) then 1 else 0) == (if IsClosed(s, i, ch) then 1 else 0) + Closings(s, acts, i, ch)
    decreases |acts|
  {
    if acts != [] {
      ActionCloses(s, acts[0], i, ch);
      ActionKeeps(s, acts[0]);
      RunCloses(Apply(s, acts[0]), acts[1..], t, i, ch);
    }
  }

  /** Channel lifecycle: over any run each channel of a connection is closed at most once;
      newBlocks is open while the connection is in its loop, so its receives never see a
      closed channel, and oldBlocks is open until the reader has returned. */
  lemma ChannelLifecycle(n: Size, acts: seq<Action>, s: Socket, i: nat, ch: Channel)
    requires Runs(Init(n), acts, s) && i < |s.conns|
    ensures Closings(Init(n), acts, i, ch) == (if IsClosed(s, i, ch) then 1 else 0)
    ensures InLoop(s.conns[i].pc) || i in s.current ==> !s.conns[i].newClosed
    ensures s.conns[i].reader.Reading? || s.conns[i].reader.Passing? ==> !s.conns[i].oldClosed
    ensures s.conns[i].pc.Done? ==> IsClosed(s, i, ch) && s.conns[i].newQ == []
  {
    InitInv(n);
    RunCloses(Init(n), acts, s, i, ch);
    RunKeeps(Init(n), acts, s);
    assert Inv(s.conns[i], s.n);
  }
}
