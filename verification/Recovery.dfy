/**
 Nothing is ever stuck for good: from every reachable state, whatever the clients hold,
 their going away lets every connection finish, and then every block comes back.
 */
module Recovery {
  import opened Connection
  import opened ConnectionProof
  import opened Socket
  import opened SocketProof
  import opened Shutdown

  // ---- Out of the loop -----------------------------------------------------------

  function ReaderLeft(r: Reader): nat {
    match r
    case Reading => 3
    case Passing(_) => 8
    case Exiting => 2
    case _ => 1
  }

  /** How far a connection in its loop is from leaving it, if reads and writes fail. */
  function LoopWork(c: Conn): nat {
    match c.pc
    case Received(_) => 2 * |c.newQ| + 3
    case Poll => 2 * |c.newQ| + 2
    case Write(_) => 1
    case Unref(_, ToSelect) => 4 * |c.oldQ| + ReaderLeft(c.reader) + 3
    case Clear(_, ToSelect) => 4 * |c.oldQ| + ReaderLeft(c.reader) + 2
    case Select => 4 * |c.oldQ| + ReaderLeft(c.reader) + 1
    case _ => 0
  }

  predicate Nearer(c: Conn, d: Conn) {
    d.pc.Close? || (InLoop(d.pc) && LoopWork(d) < LoopWork(c))
  }

  /** In the select: a returned index, the close of oldBlocks, or a step of the reader. */
  lemma SelectExit(c: Conn, n: nat) returns (a: Step)
    requires n > 0 && WellFormed(c, n) && c.pc.Select?
    ensures CanStep(c, a, n) && !a.ReadIndex? && !a.ReadTlv? && !a.Decrement?
    ensures Nearer(c, Next(c, a, n))
  {
    if c.oldQ != [] || c.oldClosed {
      assert c.oldQ != [] ==> 1 <= c.oldQ[0] <= n;
      a := TakeOld;
    } else {
      match c.reader
      case Reading => a := ReadFail;
      case Passing(_) => a := PassIndex;
      case Exiting => a := CloseOld;
    }
  }

  /** In a batch: go on to the write, and let it fail. */
  lemma BatchExit(c: Conn, n: nat) returns (a: Step)
    requires Inv(c, n) && (c.pc.Received? || c.pc.Poll? || c.pc.Write?)
    ensures CanStep(c, a, n) && !a.ReadIndex? && !a.ReadTlv? && !a.Decrement?
    ensures Nearer(c, Next(c, a, n))
  {
    match c.pc
    case Received(b) =>
      assert Accounts(c, b);
      a := Mark;
    case Poll => a := PollNew;
    case Write(_) => a := WriteFail;
  }

  /** A client that goes away is noticed: in every state of the loop there is a step that
      leaves it or comes closer to leaving it. */
  lemma ExitStep(c: Conn, n: nat, count: int) returns (a: Step)
    requires n > 0 && Inv(c, n) && InLoop(c.pc) && (c.pc.Unref? ==> count >= 1)
    ensures CanStep(c, a, n) && !a.ReadIndex? && !a.ReadTlv? && (a.Decrement? ==> a.refs == count - 1)
    ensures Nearer(c, Next(c, a, n))
  {
    match c.pc
    case Unref(_, _) => a := Decrement(count - 1);
    case Clear(_, _) => a := ClearStatus;
    case Select => a := SelectExit(c, n);
    case _ => a := BatchExit(c, n);
  }

  lemma ExitAction(s: Socket, i: nat) returns (a: Action, u: Socket)
    requires Reachable(s) && i < |s.conns| && InLoop(s.conns[i].pc)
    ensures Enabled(s, a) && Apply(s, a) == u && Helps(a, i)
    ensures Reachable(u) && i < |u.conns| && Nearer(s.conns[i], u.conns[i])
  {
    var c := s.conns[i];
    ReachableInv(s);
    assert Inv(c, s.n);
    if c.pc.Unref? {
      UnrefPositive(s, i);
    }
    var step := ExitStep(c, s.n, if c.pc.Unref? then At(s.counts, c.pc.u) else 0);
    a, u := ConnStep(i, step), StepConn(s, i, step);
    ConnStepShape(s, i, step);
    ReachableStep(s, a);
  }

  lemma NotCrashed(s: Socket, i: nat)
    requires Reachable(s) && i < |s.conns|
    ensures InLoop(s.conns[i].pc) || Closing(s.conns[i].pc) || s.conns[i].pc.Done?
  {
    ReachableInv(s);
    assert Inv(s.conns[i], s.n);
  }

  /** From every reachable state there is a run of the dispatcher and a connection's own
      goroutines after which that connection is done. */
  lemma {:induction false} ConnectionFinishes(s: Socket, i: nat) returns (acts: seq<Action>, t: Socket)
    requires Reachable(s) && i < |s.conns|
    ensures Runs(s, acts, t) && i < |t.conns| && t.conns[i].pc.Done?
    ensures forall k :: 0 <= k < |acts| ==> Helps(acts[k], i)
    decreases LoopWork(s.conns[i])
  {
    NotCrashed(s, i);
    if s.conns[i].pc.Done? {
      acts, t := [], s;
    } else if Closing(s.conns[i].pc) {
      acts, t := ShutdownCannotStick(s, i);
    } else {
      var a, u := ExitAction(s, i);
      var rest: seq<Action>;
      if u.conns[i].pc.Close? {
        rest, t := ShutdownCannotStick(u, i);
      } else {
        rest, t := ConnectionFinishes(u, i);
      }
      acts := [a] + rest;
      RunsOn(s, a, u, rest, t);
    }
  }

  // ---- All connections --------------------------------------------------------------

  /** The first k connections are done. */
  ghost predicate DoneUpTo(s: Socket, k: nat) {
    k <= |s.conns| && forall j :: 0 <= j < k ==> s.conns[j].pc.Done?
  }

  /** A finished connection stays finished. */
  lemma DoneStays(s: Socket, a: Action, j: nat)
    requires Reachable(s) && Enabled(s, a) && j < |s.conns| && s.conns[j].pc.Done?
    ensures j < |Apply(s, a).conns| && Apply(s, a).conns[j].pc.Done?
  {
    ReachableInv(s);
    assert Inv(s.conns[j], s.n);
  }

  lemma HelpsNoAccept(s: Socket, a: Action, i: nat)
    requires Enabled(s, a) && Helps(a, i)
    ensures |Apply(s, a).conns| == |s.conns|
  {
  }

  lemma {:induction false} RunKeepsDone(s: Socket, acts: seq<Action>, t: Socket, i: nat, j: nat)
    requires Reachable(s) && Runs(s, acts, t) && forall k :: 0 <= k < |acts| ==> Helps(acts[k], i)
    ensures |t.conns| == |s.conns|
    ensures j < |s.conns| && s.conns[j].pc.Done? ==> t.conns[j].pc.Done?
    decreases |acts|
  {
    if acts != [] {
      assert Helps(acts[0], i);
      ReachableStep(s, acts[0]);
      HelpsNoAccept(s, acts[0], i);
      if j < |s.conns| && s.conns[j].pc.Done? {
        DoneStays(s, acts[0], j);
      }
      RunKeepsDone(Apply(s, acts[0]), acts[1..], t, i, j);
    }
  }

  lemma OneMoreFinishes(s: Socket, k: nat) returns (acts: seq<Action>, t: Socket)
    requires Reachable(s) && DoneUpTo(s, k) && k < |s.conns|
    ensures Runs(s, acts, t) && Reachable(t) && DoneUpTo(t, k + 1) && |t.conns| == |s.conns|
  {
    acts, t := ConnectionFinishes(s, k);
    ReachableRun(s, acts, t);
    RunKeepsDone(s, acts, t, k, k);
    forall j | 0 <= j < k ensures t.conns[j].pc.Done? {
      RunKeepsDone(s, acts, t, k, j);
    }
  }

  lemma {:induction false} AllFinish(s: Socket, k: nat) returns (acts: seq<Action>, t: Socket)
    requires Reachable(s) && DoneUpTo(s, k)
    ensures Runs(s, acts, t) && Reachable(t) && DoneUpTo(t, |t.conns|)
    decreases |s.conns| - k
  {
    if k == |s.conns| {
      acts, t := [], s;
    } else {
      var first, u := OneMoreFinishes(s, k);
      var rest: seq<Action>;
      rest, t := AllFinish(u, k + 1);
      acts := first + rest;
      RunsTrans(s, first, u, rest, t);
    }
  }

  // ---- All blocks ----------------------------------------------------------------------

  /** What is still on its way when all connections are done. */
  function OnTheWay(s: Socket): nat {
    (if s.producer.Hold? then 4 else 0) + 3 * |s.queue| +
    (match s.disp
     case Got(_, _) => 2
     case BaseClear(_) => 1
     case _ => 0)
  }

  lemma NobodyOwed(s: Socket)
    requires SocketInv(s) && DoneUpTo(s, |s.conns|)
    ensures s.disp.Idle? || s.disp.BaseClear? || (s.disp.Got? && s.disp.todo == {})
  {
    forall i: nat | i < |s.conns| ensures s.conns[i].newClosed && !Draining(s.conns[i].pc) {
      assert Inv(s.conns[i], s.n);
    }
    if s.disp.Sending? {
      assert Owed(s.disp, s.disp.to);
    } else if s.disp.Got? && s.disp.todo != {} {
      var i :| i in s.disp.todo;
      assert Owed(s.disp, i);
    }
  }

  lemma DrainStep(s: Socket) returns (a: Action)
    requires Reachable(s) && DoneUpTo(s, |s.conns|) && OnTheWay(s) > 0
    ensures Enabled(s, a) && Apply(s, a).conns == s.conns && OnTheWay(Apply(s, a)) < OnTheWay(s)
  {
    ReachableInv(s);
    NobodyOwed(s);
    if s.disp.Got? {
      assert BlockInv(s, s.disp.b);
      a := UnrefBase;
    } else if s.disp.BaseClear? {
      a := ClearBase;
    } else if s.producer.Hold? {
      QueueFits(s);
      a := SendBlock;
    } else {
      RegisteredNone(s);
      a := Dispatch;
    }
  }

  lemma RegisteredNone(s: Socket)
    requires SocketInv(s) && DoneUpTo(s, |s.conns|)
    ensures s.current == {}
  {
    forall i: nat | i < |s.conns| ensures i !in s.current {
      assert Inv(s.conns[i], s.n);
    }
  }

  lemma {:induction false} Drained(s: Socket) returns (acts: seq<Action>, t: Socket)
    requires Reachable(s) && DoneUpTo(s, |s.conns|)
    ensures Runs(s, acts, t) && Reachable(t) && t.conns == s.conns && OnTheWay(t) == 0
    decreases OnTheWay(s)
  {
    if OnTheWay(s) == 0 {
      acts, t := [], s;
    } else {
      var a := DrainStep(s);
      ReachableStep(s, a);
      var rest: seq<Action>;
      rest, t := Drained(Apply(s, a));
      acts := [a] + rest;
      RunsOn(s, a, Apply(s, a), rest, t);
    }
  }

  lemma {:induction false} DoneHoldNothing(cs: seq<Conn>, n: nat, b: nat)
    requires forall i :: 0 <= i < |cs| ==> Inv(cs[i], n) && cs[i].pc.Done?
    ensures TotalRefs(cs, b) == 0 && TotalPending(cs, b) == 0
  {
    if cs != [] {
      DoneHoldNothing(cs[..|cs| - 1], n, b);
      assert Accounts(cs[|cs| - 1], b);
    }
  }

  lemma NothingHeld(s: Socket, b: nat)
    requires Reachable(s) && DoneUpTo(s, |s.conns|) && OnTheWay(s) == 0 && b < s.n
    ensures Shape(s) && s.counts[b] == 0 && s.hist.cleared[b] == s.hist.taken[b] && s.disp.Idle?
  {
    ReachableInv(s);
    NobodyOwed(s);
    DoneHoldNothing(s.conns, s.n, b);
    assert BlockInv(s, b);
  }

  /** No leak: from every reachable state there is a run after which all connections are
      done, no block has a reference or a clear to come, and every block has been cleared
      as often as the producer took it. */
  lemma EverythingComesBack(s: Socket) returns (acts: seq<Action>, t: Socket)
    requires Reachable(s)
    ensures Runs(s, acts, t) && |t.counts| == |t.hist.taken| == |t.hist.cleared| == t.n
    ensures forall i :: 0 <= i < |t.conns| ==> t.conns[i].pc.Done?
    ensures forall b: nat :: b < t.n ==> t.counts[b] == 0 && t.hist.cleared[b] == t.hist.taken[b]
    ensures t.queue == [] && t.disp.Idle?
  {
    var first, u := AllFinish(s, 0);
    var rest: seq<Action>;
    rest, t := Drained(u);
    acts := first + rest;
    RunsTrans(s, first, u, rest, t);
    NothingHeld(t, 0);
    forall b: nat | b < t.n ensures t.counts[b] == 0 && t.hist.cleared[b] == t.hist.taken[b] {
      NothingHeld(t, b);
    }
  }
}
