/** The invariant of a socket, and the proof that every action keeps it. */
module SocketProof {
  import opened Connection
  import opened ConnectionProof
  import opened Socket

  // ---- Holders of a block -----------------------------------------------

  /** The dispatcher has received b and not yet given its own reference back. */
  predicate Carries(d: Dispatcher, b: nat) {
    (d.Got? || d.Sending? || d.Dropping? || d.DropClear?) && d.b == b
  }

  /** Holders of b before any connection: producer, s.newBlocks, dispatcher. */
  function Base(s: Socket, b: nat): nat {
    (if s.producer.Hold? && s.idx == b then 1 else 0)
    + multiset(s.queue)[b]
    + (if Carries(s.disp, b) then 1 else 0)
  }

  /** The reference that is being handed to a connection. */
  function Handover(s: Socket, b: nat): nat {
    if (s.disp.Sending? || s.disp.Dropping?) && s.disp.b == b then 1 else 0
  }

  /** References to b held by the connections. */
  function TotalRefs(cs: seq<Conn>, b: nat): nat {
    if cs == [] then 0 else TotalRefs(cs[..|cs| - 1], b) + Refs(cs[|cs| - 1], b)
  }

  /** Connections that have brought the count of b to zero and not yet cleared it. */
  function TotalPending(cs: seq<Conn>, b: nat): nat {
    if cs == [] then 0 else TotalPending(cs[..|cs| - 1], b) + Pending(cs[|cs| - 1], b)
  }

  function PendingClears(s: Socket, b: nat): nat {
    TotalPending(s.conns, b) + (if (s.disp.DropClear? || s.disp.BaseClear?) && s.disp.b == b then 1 else 0)
  }

  /** The dispatcher still has to offer its block to connection i. */
  predicate Owed(d: Dispatcher, i: nat) {
    (d.Got? && i in d.todo) || (d.Sending? && (i in d.todo || i == d.to))
  }

  // ---- The invariant ----------------------------------------------------

  ghost predicate Shape(s: Socket) {
    && |s.counts| == |s.status| == |s.hist.taken| == |s.hist.cleared| == s.n
    && s.idx < s.n
    && (forall k :: 0 <= k < |s.queue| ==> s.queue[k] < s.n)
    && (s.disp.Got? || s.disp.Sending? || s.disp.BaseClear? ==> s.disp.b < s.n)
    && !s.disp.Dropping? && !s.disp.DropClear? && !s.disp.DispatcherCrashed?
    && s.hist.drops == 0
  }

  ghost predicate ConnsInv(s: Socket) {
    forall i :: 0 <= i < |s.conns| ==> Inv(s.conns[i], s.n)
  }

  /** currentConns holds exactly the connections whose newBlocks is open; the only
      connection past the rendezvous with an open newBlocks is the one the
      dispatcher is about to close. */
  ghost predicate Registered(s: Socket) {
    && (forall i :: i in s.current ==> i < |s.conns|)
    && (forall i: nat :: i < |s.conns| ==> (i in s.current <==> !s.conns[i].newClosed))
    && (forall i: nat :: i < |s.conns| ==>
          (Draining(s.conns[i].pc) && !s.conns[i].newClosed <==> s.disp == Unregistering(i)))
    && (s.disp.Unregistering? ==> s.disp.who < |s.conns|)
    && (forall i: nat :: Owed(s.disp, i) ==> i in s.current)
    && (s.disp.Sending? ==> s.disp.to !in s.disp.todo)
  }

  /** The count of a block is its number of holders, at most one of them upstream
      of the connections; the producer takes a block only at zero; and each time it
      was taken it has been cleared, is about to be, or is still in use. */
  ghost predicate BlockInv(s: Socket, b: nat) {
    && At(s.counts, b) == Base(s, b) + Handover(s, b) + TotalRefs(s.conns, b)
    && Base(s, b) <= 1
    && ((s.producer.PollStatus? || s.producer.Take?) && s.idx == b ==> At(s.counts, b) == 0)
    && At(s.hist.taken, b) ==
       At(s.hist.cleared, b) + PendingClears(s, b) + (if At(s.counts, b) > 0 then 1 else 0)
  }

  ghost predicate Blocks(s: Socket) {
    forall b: nat :: b < s.n ==> BlockInv(s, b)
  }

  /** b has not reached connection i yet. */
  predicate Ahead(s: Socket, i: nat, b: nat) {
    || (s.producer.Hold? && s.idx == b)
    || b in s.queue
    || (Carries(s.disp, b) && Owed(s.disp, i))
  }

  /** A connection has no reference to a block that has not reached it yet. */
  ghost predicate FreshAt(s: Socket, i: nat, b: nat)
    requires i < |s.conns|
  {
    Ahead(s, i, b) ==> Refs(s.conns[i], b) == 0
  }

  ghost predicate Fresh(s: Socket) {
    forall i: nat, b: nat :: i < |s.conns| ==> FreshAt(s, i, b)
  }

  /** Everything between producer and client is in cyclic order, without gaps. */
  ghost predicate Positions(s: Socket) {
    && s.hist.sent == s.hist.dispatched + |s.queue| && s.idx == s.hist.sent % s.n
    && (forall k: nat :: k < |s.queue| ==> s.queue[k] == (s.hist.dispatched + k) % s.n)
    && (s.disp.Got? || s.disp.Sending? ==>
          s.hist.dispatched > 0 && s.disp.b == (s.hist.dispatched - 1) % s.n)
    && (forall i: nat :: i < |s.conns| ==> PositionAt(s, i))
  }

  ghost predicate PositionAt(s: Socket, i: nat)
    requires i < |s.conns|
  {
    && Window(s.conns[i], s.n)
    && s.conns[i].log.joined + |s.conns[i].log.got| + |s.conns[i].newQ| <= s.hist.dispatched
    && (i in s.current ==>
          s.conns[i].log.joined + |s.conns[i].log.got| + |s.conns[i].newQ|
          + (if Owed(s.disp, i) then 1 else 0) == s.hist.dispatched)
  }

  ghost predicate SocketInv(s: Socket) {
    Shape(s) && ConnsInv(s) && Registered(s) && Blocks(s) && Fresh(s) && Positions(s)
  }

  // ---- Sums over the connections ------------------------------------------

  lemma {:induction false} TotalUpdate(cs: seq<Conn>, i: nat, d: Conn, b: nat)
    requires i < |cs|
    ensures TotalRefs(cs[i := d], b) == TotalRefs(cs, b) - Refs(cs[i], b) + Refs(d, b)
    ensures TotalPending(cs[i := d], b) == TotalPending(cs, b) - Pending(cs[i], b) + Pending(d, b)
  {
    var m := |cs| - 1;
    if i == m {
      assert cs[i := d][..m] == cs[..m];
    } else {
      assert cs[i := d][..m] == cs[..m][i := d];
      TotalUpdate(cs[..m], i, d, b);
    }
  }

  lemma TotalAppend(cs: seq<Conn>, d: Conn, b: nat)
    ensures TotalRefs(cs + [d], b) == TotalRefs(cs, b) + Refs(d, b)
    ensures TotalPending(cs + [d], b) == TotalPending(cs, b) + Pending(d, b)
  {
  }

  lemma {:induction false} TotalAtLeast(cs: seq<Conn>, i: nat, b: nat)
    requires i < |cs|
    ensures TotalRefs(cs, b) >= Refs(cs[i], b)
    ensures TotalPending(cs, b) >= Pending(cs[i], b)
  {
    if i < |cs| - 1 {
      TotalAtLeast(cs[..|cs| - 1], i, b);
    }
  }

  lemma AddAt(v: seq<int>, b: nat, d: int, x: nat)
    requires b < |v|
    ensures |Add(v, b, d)| == |v| && At(Add(v, b, d), x) == At(v, x) + (if x == b then d else 0)
  {
  }

  // ---- Steps of a connection ----------------------------------------------

  /** A connection about to unref holds a reference, so the count is positive. */
  lemma UnrefPositive(s: Socket, i: nat)
    requires ConnsInv(s) && Blocks(s) && i < |s.conns| && s.conns[i].pc.Unref?
    ensures s.conns[i].pc.u < s.n && At(s.counts, s.conns[i].pc.u) >= 1
  {
    var u := s.conns[i].pc.u;
    assert BlockInv(s, u);
    TotalAtLeast(s.conns, i, u);
  }

  lemma ConnStepLocal(s: Socket, i: nat, step: Step)
    requires ConnsInv(s) && Blocks(s) && Enabled(s, ConnStep(i, step))
    ensures var c := s.conns[i]; var d := Next(c, step, s.n);
      && Inv(d, s.n)
      && forall b: nat :: Refs(d, b) == Refs(c, b) - (if step.Decrement? && b == c.pc.u then 1 else 0)
  {
    if step.Decrement? {
      UnrefPositive(s, i);
    }
    StepInv(s.conns[i], step, s.n);
  }

  lemma ConnStepShape(s: Socket, i: nat, step: Step)
    requires Shape(s) && ConnsInv(s) && Enabled(s, ConnStep(i, step))
    ensures Shape(StepConn(s, i, step))
    ensures var t := StepConn(s, i, step);
      && t.n == s.n && t.conns == s.conns[i := Next(s.conns[i], step, s.n)]
      && t.producer == s.producer && t.idx == s.idx && t.queue == s.queue
      && t.disp == s.disp && t.current == s.current
      && t.hist.sent == s.hist.sent && t.hist.dispatched == s.hist.dispatched
      && t.hist.taken == s.hist.taken
      && (step.Decrement? || step.ClearStatus? ==> s.conns[i].pc.u < s.n)
      && t.counts == (if step.Decrement? then Add(s.counts, s.conns[i].pc.u, -1) else s.counts)
      && t.hist.cleared == (if step.ClearStatus? then Add(s.hist.cleared, s.conns[i].pc.u, 1) else s.hist.cleared)
  {
  }

  /** The phases a connection goes through on its own do not cross the rendezvous. */
  lemma StepPhase(c: Conn, a: Step, n: nat)
    requires WellFormed(c, n) && CanStep(c, a, n) && WellFormed(Next(c, a, n), n)
    ensures Next(c, a, n).newClosed == c.newClosed
    ensures !c.newClosed ==> (Draining(Next(c, a, n).pc) <==> Draining(c.pc))
  {
  }

  lemma ConnStepRegistered(s: Socket, i: nat, step: Step)
    requires Shape(s) && ConnsInv(s) && Blocks(s) && Registered(s) && Enabled(s, ConnStep(i, step))
    ensures Registered(StepConn(s, i, step))
  {
    ConnStepShape(s, i, step);
    ConnStepLocal(s, i, step);
    StepPhase(s.conns[i], step, s.n);
  }

  lemma ConnStepTotals(s: Socket, i: nat, step: Step, b: nat)
    requires ConnsInv(s) && Blocks(s) && Enabled(s, ConnStep(i, step))
    ensures var c := s.conns[i]; var cs := s.conns[i := Next(c, step, s.n)];
      && TotalRefs(cs, b) == TotalRefs(s.conns, b) - (if step.Decrement? && b == c.pc.u then 1 else 0)
      && TotalPending(cs, b) == TotalPending(s.conns, b)
           + (if step.Decrement? && step.refs == 0 && c.pc.u == b then 1 else 0)
           - (if step.ClearStatus? && c.pc.u == b then 1 else 0)
  {
    var c, d := s.conns[i], Next(s.conns[i], step, s.n);
    ConnStepLocal(s, i, step);
    StepPending(c, step, s.n, b);
    TotalUpdate(s.conns, i, d, b);
    assert Refs(d, b) == Refs(c, b) - (if step.Decrement? && b == c.pc.u then 1 else 0);
  }

  /** The accounts of a block after a connection has dropped `drop` references to it and
      cleared it `clear` times. */
  lemma BlockTransfer(s: Socket, t: Socket, b: nat, drop: nat, clear: nat)
    requires BlockInv(s, b) && drop <= 1
    requires t.producer == s.producer && t.idx == s.idx && t.queue == s.queue && t.disp == s.disp
    requires At(t.counts, b) == At(s.counts, b) - drop && At(t.hist.taken, b) == At(s.hist.taken, b)
    requires At(t.hist.cleared, b) == At(s.hist.cleared, b) + clear
    requires TotalRefs(t.conns, b) == TotalRefs(s.conns, b) - drop
    requires TotalPending(t.conns, b) + clear ==
      TotalPending(s.conns, b) + (if drop == 1 && At(s.counts, b) == 1 then 1 else 0)
    ensures BlockInv(t, b)
  {
  }

  lemma ConnStepBlock(s: Socket, i: nat, step: Step, b: nat)
    requires Shape(s) && ConnsInv(s) && Blocks(s) && Enabled(s, ConnStep(i, step)) && b < s.n
    ensures BlockInv(StepConn(s, i, step), b)
  {
    var c, t := s.conns[i], StepConn(s, i, step);
    ConnStepShape(s, i, step);
    ConnStepTotals(s, i, step, b);
    assert BlockInv(s, b);
    if step.Decrement? {
      UnrefPositive(s, i);
      AddAt(s.counts, c.pc.u, -1, b);
      BlockTransfer(s, t, b, if b == c.pc.u then 1 else 0, 0);
    } else if step.ClearStatus? {
      AddAt(s.hist.cleared, c.pc.u, 1, b);
      BlockTransfer(s, t, b, 0, if b == c.pc.u then 1 else 0);
    } else {
      BlockTransfer(s, t, b, 0, 0);
    }
  }

  lemma ConnStepFresh(s: Socket, i: nat, step: Step)
    requires Shape(s) && ConnsInv(s) && Blocks(s) && Fresh(s) && Enabled(s, ConnStep(i, step))
    ensures Fresh(StepConn(s, i, step))
  {
    var t := StepConn(s, i, step);
    ConnStepShape(s, i, step);
    ConnStepLocal(s, i, step);
    forall j: nat, b: nat | j < |t.conns| ensures FreshAt(t, j, b) {
      assert FreshAt(s, j, b);
      assert Refs(t.conns[j], b) <= Refs(s.conns[j], b);
    }
  }

  lemma ConnStepPositions(s: Socket, i: nat, step: Step)
    requires Shape(s) && ConnsInv(s) && Positions(s) && Enabled(s, ConnStep(i, step))
    ensures Positions(StepConn(s, i, step))
  {
    var t := StepConn(s, i, step);
    ConnStepShape(s, i, step);
    assert PositionAt(s, i);
    StepWindow(s.conns[i], step, s.n);
    forall j: nat | j < |t.conns| ensures PositionAt(t, j) {
      assert PositionAt(s, j);
    }
  }

  lemma ConnStepKeeps(s: Socket, i: nat, step: Step)
    requires SocketInv(s) && Enabled(s, ConnStep(i, step))
    ensures SocketInv(StepConn(s, i, step))
  {
    var t := StepConn(s, i, step);
    ConnStepShape(s, i, step);
    ConnStepLocal(s, i, step);
    ConnStepRegistered(s, i, step);
    forall b: nat | b < t.n ensures BlockInv(t, b) {
      ConnStepBlock(s, i, step, b);
    }
    ConnStepFresh(s, i, step);
    ConnStepPositions(s, i, step);
  }

  // ---- The kernel and the producer ----------------------------------------

  /** Queue, connections and what they are owed are the same. */
  ghost predicate Undisturbed(s: Socket, t: Socket) {
    && t.n == s.n && t.conns == s.conns && t.current == s.current && t.queue == s.queue && t.idx == s.idx
    && t.hist.sent == s.hist.sent && t.hist.dispatched == s.hist.dispatched
    && (t.disp.Got? || t.disp.Sending? ==> (s.disp.Got? || s.disp.Sending?) && t.disp.b == s.disp.b)
    && forall i: nat :: Owed(t.disp, i) <==> Owed(s.disp, i)
  }

  lemma UndisturbedPositions(s: Socket, t: Socket)
    requires Positions(s) && Undisturbed(s, t)
    ensures Positions(t)
  {
    forall i: nat | i < |t.conns| ensures PositionAt(t, i) {
      assert PositionAt(s, i);
    }
  }

  lemma UndisturbedFresh(s: Socket, t: Socket)
    requires Fresh(s) && Undisturbed(s, t) && (t.producer.Hold? ==> s.producer.Hold?)
    requires !t.disp.Dropping? && !t.disp.DropClear?
    ensures Fresh(t)
  {
    forall i: nat, b: nat | i < |t.conns| ensures FreshAt(t, i, b) {
      assert FreshAt(s, i, b);
    }
  }

  lemma PollBlocks(s: Socket, a: Action)
    requires Shape(s) && Blocks(s) && Enabled(s, a) && (a.KernelFill? || a.LoadCount? || a.LoadStatus?)
    ensures Blocks(Apply(s, a))
  {
    var t := Apply(s, a);
    forall b: nat | b < t.n ensures BlockInv(t, b) {
      assert BlockInv(s, b);
    }
  }

  /** KernelFill, LoadCount, LoadStatus: no reference moves. */
  lemma PollKeeps(s: Socket, a: Action)
    requires SocketInv(s) && Enabled(s, a) && (a.KernelFill? || a.LoadCount? || a.LoadStatus?)
    ensures SocketInv(Apply(s, a))
  {
    PollBlocks(s, a);
    UndisturbedPositions(s, Apply(s, a));
    UndisturbedFresh(s, Apply(s, a));
  }

  lemma TakeBlocks(s: Socket)
    requires Shape(s) && Blocks(s) && s.producer.Take?
    ensures Blocks(TakeBlock(s)) && TotalRefs(s.conns, s.idx) == 0
  {
    var t := TakeBlock(s);
    assert BlockInv(s, s.idx);
    forall b: nat | b < t.n ensures BlockInv(t, b) {
      assert BlockInv(s, b);
      AddAt(s.counts, s.idx, 1, b);
      AddAt(s.hist.taken, s.idx, 1, b);
    }
  }

  lemma TakeFresh(s: Socket)
    requires Fresh(s) && TotalRefs(s.conns, s.idx) == 0
    ensures Fresh(TakeBlock(s))
  {
    var t := TakeBlock(s);
    forall i: nat, b: nat | i < |t.conns| ensures FreshAt(t, i, b) {
      assert FreshAt(s, i, b);
      TotalAtLeast(s.conns, i, b);
    }
  }

  lemma TakeKeeps(s: Socket)
    requires SocketInv(s) && s.producer.Take?
    ensures SocketInv(TakeBlock(s))
  {
    TakeBlocks(s);
    TakeFresh(s);
    UndisturbedPositions(s, TakeBlock(s));
  }

  lemma TimesAtLeast(k: int, n: nat)
    ensures k >= 1 ==> k * n >= n
    ensures k <= -1 ==> k * n + n <= 0
  {
    if k >= 1 {
      assert k * n == (k - 1) * n + n;
    } else if k <= -1 {
      assert k * n == (k + 1) * n - n;
    }
  }

  lemma ModUnique(x: nat, n: nat, q: nat, r: nat)
    requires n > 0 && x == q * n + r && r < n
    ensures x % n == r
  {
    var q', r' := x / n, x % n;
    assert x == q' * n + r';
    assert (q' - q) * n == q' * n - q * n;
    TimesAtLeast(q' - q, n);
  }

  lemma ModIncrement(x: nat, n: nat)
    requires n > 0
    ensures (x % n + 1) % n == (x + 1) % n
  {
    ModIncrementAt(x, n, x / n, x % n);
  }

  lemma ModIncrementAt(x: nat, n: nat, q: nat, r: nat)
    requires n > 0 && x == q * n + r && r < n
    ensures (r + 1) % n == (x + 1) % n
  {
    if r + 1 == n {
      assert (q + 1) * n == q * n + n;
      ModUnique(x + 1, n, q + 1, 0);
      ModUnique(r + 1, n, 1, 0);
    } else {
      ModUnique(x + 1, n, q, r + 1);
      ModUnique(r + 1, n, 0, r + 1);
    }
  }

  lemma SendPositions(s: Socket)
    requires Shape(s) && Positions(s) && s.producer.Hold?
    ensures Positions(SendOn(s))
  {
    var t := SendOn(s);
    ModIncrement(s.hist.sent, s.n);
    forall i: nat | i < |t.conns| ensures PositionAt(t, i) {
      assert PositionAt(s, i);
    }
  }

  /** s.newBlocks has room for the block that the producer holds. */
  lemma QueueFits(s: Socket)
    requires Shape(s) && Blocks(s) && s.producer.Hold?
    ensures |s.queue| < s.n
  {
    var q := s.queue + [s.idx];
    forall j, k | 0 <= j < k < |q| ensures q[j] != q[k] {
      assert BlockInv(s, q[j]);
      assert s.queue[j] in s.queue;
      if q[j] == q[k] && k < |s.queue| {
        TwiceIn(s.queue, j, k);
      }
    }
    Pigeonhole(q, s.n);
  }

  lemma SendFresh(s: Socket)
    requires Blocks(s) && Fresh(s) && s.producer.Hold?
    ensures Blocks(SendOn(s)) && Fresh(SendOn(s))
  {
    var t := SendOn(s);
    forall b: nat | b < t.n ensures BlockInv(t, b) {
      assert BlockInv(s, b);
    }
    forall i: nat, b: nat | i < |t.conns| ensures FreshAt(t, i, b) {
      assert FreshAt(s, i, b);
    }
  }

  lemma SendKeeps(s: Socket)
    requires SocketInv(s) && s.producer.Hold?
    ensures SocketInv(SendOn(s))
  {
    SendFresh(s);
    SendPositions(s);
  }

  // ---- The dispatcher -------------------------------------------------------

  lemma NewConnInv(joined: nat, n: Size)
    ensures Inv(NewConn(joined), n)
    ensures forall b: nat :: Refs(NewConn(joined), b) == 0 && Pending(NewConn(joined), b) == 0
  {
  }

  lemma AcceptBlocks(s: Socket)
    requires Shape(s) && Blocks(s) && Fresh(s)
    ensures Blocks(AcceptConn(s)) && Fresh(AcceptConn(s))
  {
    var t := AcceptConn(s);
    NewConnInv(s.hist.dispatched, s.n);
    forall b: nat | b < t.n ensures BlockInv(t, b) {
      assert BlockInv(s, b);
      TotalAppend(s.conns, NewConn(s.hist.dispatched), b);
    }
    forall i: nat, b: nat | i < |t.conns| ensures FreshAt(t, i, b) {
      if i < |s.conns| {
        assert FreshAt(s, i, b);
      }
    }
  }

  lemma AcceptPositions(s: Socket)
    requires Positions(s) && s.disp.Idle? && forall i :: i in s.current ==> i < |s.conns|
    ensures Positions(AcceptConn(s))
  {
    var t := AcceptConn(s);
    forall i: nat | i < |t.conns| ensures PositionAt(t, i) {
      if i < |s.conns| {
        assert PositionAt(s, i);
      }
    }
  }

  lemma AcceptRegistered(s: Socket)
    requires Registered(s) && ConnsInv(s) && s.disp.Idle?
    ensures Registered(AcceptConn(s)) && ConnsInv(AcceptConn(s))
  {
    NewConnInv(s.hist.dispatched, s.n);
  }

  lemma AcceptKeeps(s: Socket)
    requires SocketInv(s) && s.disp.Idle?
    ensures SocketInv(AcceptConn(s))
  {
    AcceptRegistered(s);
    AcceptBlocks(s);
    AcceptPositions(s);
  }

  lemma DispatchPositions(s: Socket)
    requires Shape(s) && Registered(s) && Positions(s) && s.disp.Idle? && s.queue != []
    ensures Positions(DispatchBlock(s))
  {
    var t := DispatchBlock(s);
    assert s.queue[0] == (s.hist.dispatched + 0) % s.n;
    forall k: nat | k < |t.queue| ensures t.queue[k] == (t.hist.dispatched + k) % t.n {
      assert t.queue[k] == s.queue[k + 1];
      assert s.hist.dispatched + (k + 1) == t.hist.dispatched + k;
    }
    forall i: nat | i < |t.conns| ensures PositionAt(t, i) {
      assert PositionAt(s, i);
    }
  }

  lemma DispatchBlocks(s: Socket)
    requires Blocks(s) && Fresh(s) && s.disp.Idle? && s.queue != []
    ensures Blocks(DispatchBlock(s)) && Fresh(DispatchBlock(s))
  {
    var t := DispatchBlock(s);
    PopMultiset(s.queue);
    forall b: nat | b < t.n ensures BlockInv(t, b) {
      assert BlockInv(s, b);
    }
    forall i: nat, b: nat | i < |t.conns| ensures FreshAt(t, i, b) {
      assert FreshAt(s, i, b);
    }
  }

  lemma DispatchKeeps(s: Socket)
    requires SocketInv(s) && s.disp.Idle? && s.queue != []
    ensures SocketInv(DispatchBlock(s))
  {
    DispatchBlocks(s);
    DispatchPositions(s);
  }

  lemma RefForBlocks(s: Socket, to: nat)
    requires Shape(s) && Blocks(s) && Enabled(s, RefFor(to))
    ensures Blocks(Apply(s, RefFor(to)))
  {
    var t := Apply(s, RefFor(to));
    assert BlockInv(s, s.disp.b);
    forall b: nat | b < t.n ensures BlockInv(t, b) {
      assert BlockInv(s, b);
      AddAt(s.counts, s.disp.b, 1, b);
    }
  }

  lemma RefForKeeps(s: Socket, to: nat)
    requires SocketInv(s) && Enabled(s, RefFor(to))
    ensures SocketInv(Apply(s, RefFor(to)))
  {
    var t := Apply(s, RefFor(to));
    RefForBlocks(s, to);
    assert forall i: nat :: Owed(t.disp, i) <==> Owed(s.disp, i);
    UndisturbedPositions(s, t);
    UndisturbedFresh(s, t);
  }

  /** The non-blocking send finds an open channel with room. */
  lemma SendToFits(s: Socket)
    requires SocketInv(s) && s.disp.Sending?
    ensures s.disp.to < |s.conns| && !s.conns[s.disp.to].newClosed
    ensures Refs(s.conns[s.disp.to], s.disp.b) == 0 && |s.conns[s.disp.to].newQ| < s.n
  {
    assert Owed(s.disp, s.disp.to);
    assert FreshAt(s, s.disp.to, s.disp.b);
    PushFits(s.conns[s.disp.to], s.disp.b, s.n);
  }

  lemma SendToPositions(s: Socket, b: nat, todo: set<nat>, to: nat)
    requires Registered(s) && Positions(s) && s.disp == Sending(b, todo, to)
    requires to < |s.conns| && !s.conns[to].newClosed
    ensures Positions(s.(disp := Got(b, todo), conns := s.conns[to := Push(s.conns[to], b)]))
  {
    var t := s.(disp := Got(b, todo), conns := s.conns[to := Push(s.conns[to], b)]);
    assert PositionAt(s, to);
    assert Owed(s.disp, to);
    forall i: nat | i < |t.conns| ensures PositionAt(t, i) {
      assert PositionAt(s, i);
    }
  }

  lemma SendToBlocks(s: Socket, b: nat, todo: set<nat>, to: nat)
    requires Shape(s) && ConnsInv(s) && Blocks(s) && Fresh(s) && s.disp == Sending(b, todo, to)
    requires to < |s.conns| && !s.conns[to].newClosed && Refs(s.conns[to], b) == 0 && to !in todo
    ensures var t := s.(disp := Got(b, todo), conns := s.conns[to := Push(s.conns[to], b)]);
      Shape(t) && ConnsInv(t) && Blocks(t) && Fresh(t)
  {
    var d := Push(s.conns[to], b);
    var t := s.(disp := Got(b, todo), conns := s.conns[to := d]);
    PushKeeps(s.conns[to], b, s.n);
    forall x: nat | x < t.n ensures BlockInv(t, x) {
      assert BlockInv(s, x);
      TotalUpdate(s.conns, to, d, x);
      assert Refs(d, x) == Refs(s.conns[to], x) + (if x == b then 1 else 0);
    }
    assert BlockInv(s, b);
    forall i: nat, x: nat | i < |t.conns| ensures FreshAt(t, i, x) {
      assert FreshAt(s, i, x);
      assert Refs(d, x) == Refs(s.conns[to], x) + (if x == b then 1 else 0);
    }
  }

  lemma SendToRegistered(s: Socket, b: nat, todo: set<nat>, to: nat)
    requires Registered(s) && s.disp == Sending(b, todo, to) && to < |s.conns|
    ensures Registered(s.(disp := Got(b, todo), conns := s.conns[to := Push(s.conns[to], b)]))
  {
  }

  lemma SendToKeeps(s: Socket)
    requires SocketInv(s) && s.disp.Sending?
    ensures Enabled(s, SendTo) && SocketInv(Apply(s, SendTo))
  {
    SendToFits(s);
    SendToBlocks(s, s.disp.b, s.disp.todo, s.disp.to);
    SendToRegistered(s, s.disp.b, s.disp.todo, s.disp.to);
    SendToPositions(s, s.disp.b, s.disp.todo, s.disp.to);
  }

  lemma UnrefBaseBlocks(s: Socket)
    requires Shape(s) && Blocks(s) && Enabled(s, UnrefBase)
    ensures Blocks(Apply(s, UnrefBase)) && At(s.counts, s.disp.b) >= 1
  {
    var t := Apply(s, UnrefBase);
    assert BlockInv(s, s.disp.b);
    forall b: nat | b < t.n ensures BlockInv(t, b) {
      assert BlockInv(s, b);
      AddAt(s.counts, s.disp.b, -1, b);
    }
  }

  lemma UnrefBaseKeeps(s: Socket)
    requires SocketInv(s) && Enabled(s, UnrefBase)
    ensures SocketInv(Apply(s, UnrefBase))
  {
    UnrefBaseBlocks(s);
    UndisturbedPositions(s, Apply(s, UnrefBase));
    UndisturbedFresh(s, Apply(s, UnrefBase));
  }

  lemma ClearBaseBlocks(s: Socket)
    requires Shape(s) && Blocks(s) && s.disp.BaseClear?
    ensures Blocks(Apply(s, ClearBase))
  {
    var t := Apply(s, ClearBase);
    forall b: nat | b < t.n ensures BlockInv(t, b) {
      assert BlockInv(s, b);
      AddAt(s.hist.cleared, s.disp.b, 1, b);
    }
  }

  lemma ClearBaseKeeps(s: Socket)
    requires SocketInv(s) && s.disp.BaseClear?
    ensures SocketInv(Apply(s, ClearBase))
  {
    ClearBaseBlocks(s);
    UndisturbedPositions(s, Apply(s, ClearBase));
    UndisturbedFresh(s, Apply(s, ClearBase));
  }

  /** A change of one connection that moves no reference, while the dispatcher goes
      between Idle and Unregistering. */
  ghost predicate Reregistered(s: Socket, t: Socket, who: nat, d: Conn) {
    && who < |s.conns| && SameRefs(s.conns[who], d)
    && d == s.conns[who].(pc := d.pc, newClosed := d.newClosed)
    && (d.pc == s.conns[who].pc || (!s.conns[who].pc.Clear? && !d.pc.Clear?))
    && ((s.disp.Idle? && t.disp == Unregistering(who)) || (s.disp == Unregistering(who) && t.disp.Idle?))
    && t == s.(disp := t.disp, current := t.current, conns := s.conns[who := d])
    && t.current <= s.current
  }

  lemma MembershipBlocks(s: Socket, t: Socket, who: nat, d: Conn)
    requires Blocks(s) && Reregistered(s, t, who, d)
    ensures Blocks(t)
  {
    forall b: nat | b < t.n ensures BlockInv(t, b) {
      assert BlockInv(s, b);
      TotalUpdate(s.conns, who, d, b);
      assert Refs(d, b) == Refs(s.conns[who], b);
    }
  }

  lemma MembershipFresh(s: Socket, t: Socket, who: nat, d: Conn)
    requires Fresh(s) && Reregistered(s, t, who, d)
    ensures Fresh(t)
  {
    forall i: nat, b: nat | i < |t.conns| ensures FreshAt(t, i, b) {
      assert FreshAt(s, i, b);
      assert Refs(d, b) == Refs(s.conns[who], b);
    }
  }

  lemma MembershipPositionAt(s: Socket, t: Socket, who: nat, d: Conn, i: nat)
    requires Reregistered(s, t, who, d) && i < |s.conns| && PositionAt(s, i)
    ensures PositionAt(t, i)
  {
    assert !Owed(s.disp, i) && !Owed(t.disp, i);
    if i == who {
      assert Window(d, s.n);
    }
  }

  lemma MembershipPositions(s: Socket, t: Socket, who: nat, d: Conn)
    requires Positions(s) && Reregistered(s, t, who, d)
    ensures Positions(t)
  {
    forall i: nat | i < |t.conns| ensures PositionAt(t, i) {
      MembershipPositionAt(s, t, who, d, i);
    }
  }

  lemma MembershipKeeps(s: Socket, t: Socket, who: nat, d: Conn)
    requires SocketInv(s) && Reregistered(s, t, who, d) && Inv(d, s.n) && Registered(t)
    ensures SocketInv(t)
  {
    MembershipBlocks(s, t, who, d);
    MembershipFresh(s, t, who, d);
    MembershipPositions(s, t, who, d);
  }

  lemma RendezvousKeepsAll(s: Socket, who: nat)
    requires SocketInv(s) && Enabled(s, Rendezvous(who))
    ensures SocketInv(Apply(s, Rendezvous(who)))
  {
    RendezvousKeeps(s.conns[who], s.n);
    MembershipKeeps(s, Apply(s, Rendezvous(who)), who, s.conns[who].(pc := DrainNew));
  }

  lemma CloseNewKeepsAll(s: Socket)
    requires SocketInv(s) && s.disp.Unregistering?
    ensures Enabled(s, CloseNew) && SocketInv(Apply(s, CloseNew))
  {
    var who := s.disp.who;
    CloseNewKeeps(s.conns[who], s.n);
    MembershipKeeps(s, Apply(s, CloseNew), who, s.conns[who].(newClosed := true));
  }

  // ---- Every run ------------------------------------------------------------

  /** Every action keeps the invariant. */
  lemma ActionKeeps(s: Socket, a: Action)
    requires SocketInv(s) && Enabled(s, a)
    ensures SocketInv(Apply(s, a))
  {
    match a
    case KernelFill(_) => PollKeeps(s, a);
    case LoadCount => PollKeeps(s, a);
    case LoadStatus => PollKeeps(s, a);
    case TakeRef => TakeKeeps(s);
    case SendBlock => SendKeeps(s);
    case Accept => AcceptKeeps(s);
    case Dispatch => DispatchKeeps(s);
    case RefFor(to) => RefForKeeps(s, to);
    case SendTo => SendToKeeps(s);
    case UnrefBase => UnrefBaseKeeps(s);
    case ClearBase => ClearBaseKeeps(s);
    case Rendezvous(who) => RendezvousKeepsAll(s, who);
    case CloseNew => CloseNewKeepsAll(s);
    case ConnStep(i, step) => ConnStepKeeps(s, i, step);
    case _ =>
  }

  lemma InitInv(n: Size)
    ensures SocketInv(Init(n))
  {
  }

  lemma {:induction false} RunKeeps(s: Socket, acts: seq<Action>, t: Socket)
    requires SocketInv(s) && Runs(s, acts, t)
    ensures SocketInv(t)
    decreases |acts|
  {
    if acts != [] {
      ActionKeeps(s, acts[0]);
      RunKeeps(Apply(s, acts[0]), acts[1..], t);
    }
  }

  lemma RunsOn(s: Socket, a: Action, t: Socket, acts: seq<Action>, u: Socket)
    requires Enabled(s, a) && Apply(s, a) == t && Runs(t, acts, u)
    ensures Runs(s, [a] + acts, u)
  {
    assert ([a] + acts)[1..] == acts;
  }

  lemma {:induction false} RunsTrans(s: Socket, xs: seq<Action>, t: Socket, ys: seq<Action>, u: Socket)
    requires Runs(s, xs, t) && Runs(t, ys, u)
    ensures Runs(s, xs + ys, u)
    decreases |xs|
  {
    if xs == [] {
      assert xs + ys == ys;
    } else {
      assert (xs + ys)[1..] == xs[1..] + ys;
      RunsTrans(Apply(s, xs[0]), xs[1..], t, ys, u);
    }
  }

  /** The invariant holds in every reachable state, for every number of blocks and
      connections and every interleaving. */
  lemma ReachableInv(s: Socket)
    requires Reachable(s)
    ensures SocketInv(s)
  {
    var n: Size, acts: seq<Action> :| Runs(Init(n), acts, s);
    InitInv(n);
    RunKeeps(Init(n), acts, s);
  }

  lemma ReachableRun(s: Socket, acts: seq<Action>, t: Socket)
    requires Reachable(s) && Runs(s, acts, t)
    ensures Reachable(t)
  {
    var n: Size, before: seq<Action> :| Runs(Init(n), before, s);
    RunsTrans(Init(n), before, s, acts, t);
  }

  lemma ReachableStep(s: Socket, a: Action)
    requires Reachable(s) && Enabled(s, a)
    ensures Reachable(Apply(s, a))
  {
    RunsOn(s, a, Apply(s, a), [], Apply(s, a));
    ReachableRun(s, [a] + [], Apply(s, a));
  }
}
