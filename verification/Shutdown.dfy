/**
 A connection that has left its loop always gets to the end of `run`: the dispatcher
 and the two goroutines of the connection can finish it on their own, within an
 explicit number of steps, and once it is unregistered no schedule can delay it.
 */
module Shutdown {
  import opened Connection
  import opened ConnectionProof
  import opened Socket
  import opened SocketProof

  /** Left the loop, not done yet. */
  predicate Closing(pc: Pc) {
    !InLoop(pc) && !pc.Done? && !pc.Crashed?
  }

  predicate PastRendezvous(pc: Pc) {
    Draining(pc) || pc.DrainOld? || Sweeping(pc)
  }

  // ---- How much is left -----------------------------------------------------

  function ReaderWork(r: Reader): nat {
    match r
    case Reading => 2
    case Passing(_) => 4
    case Exiting => 1
    case _ => 0
  }

  /** The last loop, from entry i: a round is a step, a decrement and a clear. */
  function SweepWork(i: nat, n: nat): nat {
    1 + 3 * (if i <= n then n - i else 0)
  }

  function DrainOldWork(c: Conn, n: nat): nat {
    1 + |c.oldQ| + ReaderWork(c.reader) + SweepWork(0, n)
  }

  function DrainNewWork(c: Conn, n: nat): nat {
    (if c.newClosed then 0 else 1) + 3 * |c.newQ| + 1 + DrainOldWork(c, n)
  }

  /** What is left for a connection past the rendezvous. */
  function OwnWork(c: Conn, n: nat): nat {
    match c.pc
    case DrainNew => DrainNewWork(c, n)
    case DrainOld => DrainOldWork(c, n)
    case Release(i) => SweepWork(i, n)
    case Unref(_, ToDrain) => DrainNewWork(c, n) + 2
    case Clear(_, ToDrain) => DrainNewWork(c, n) + 1
    case Unref(_, ToRelease(i)) => SweepWork(i, n) + 2
    case Clear(_, ToRelease(i)) => SweepWork(i, n) + 1
    case _ => 0
  }

  /** Steps of the dispatcher until it is back in its select. */
  function DispatcherWork(d: Dispatcher): nat {
    match d
    case Got(_, todo) => 2 + 2 * |todo|
    case Sending(_, todo, _) => 3 + 2 * |todo|
    case BaseClear(_) => 1
    case Unregistering(_) => 1
    case _ => 0
  }

  /** An upper bound on the steps that connection i needs to be done. */
  function Work(s: Socket, i: nat): nat
    requires i < |s.conns|
  {
    var c := s.conns[i];
    if c.pc.Close? || c.pc.Offer? then
      (if c.pc.Close? then 1 else 0) + DispatcherWork(s.disp) + 3 + 3 * s.n + DrainOldWork(c, s.n)
    else OwnWork(c, s.n)
  }

  // ---- Once unregistered -------------------------------------------------------

  /** Every step of a connection past the rendezvous is one step closer to done. */
  lemma OwnProgress(c: Conn, a: Step, n: nat)
    requires WellFormed(c, n) && PastRendezvous(c.pc) && CanStep(c, a, n) && (a.Decrement? ==> a.refs >= 0)
    ensures OwnWork(Next(c, a, n), n) < OwnWork(c, n)
  {
  }

  /** Nothing but its own two goroutines changes an unregistered connection. */
  lemma OthersLeaveAlone(s: Socket, a: Action, i: nat)
    requires SocketInv(s) && Enabled(s, a) && i < |s.conns| && s.conns[i].newClosed
    requires !(a.ConnStep? && a.i == i)
    ensures i < |Apply(s, a).conns| && Apply(s, a).conns[i] == s.conns[i]
  {
    if a.SendTo? {
      SendToFits(s);
    } else if a.Rendezvous? || a.CloseNew? {
      assert Inv(s.conns[i], s.n);
    }
  }

  lemma OwnStep(s: Socket, i: nat, step: Step)
    requires SocketInv(s) && Enabled(s, ConnStep(i, step)) && s.conns[i].newClosed
    ensures var t := StepConn(s, i, step);
      && |t.conns| == |s.conns| && t.n == s.n && t.conns[i].newClosed
      && OwnWork(t.conns[i], s.n) < OwnWork(s.conns[i], s.n)
  {
    assert Inv(s.conns[i], s.n);
    if step.Decrement? {
      UnrefPositive(s, i);
    }
    ConnStepLocal(s, i, step);
    ConnStepShape(s, i, step);
    StepPhase(s.conns[i], step, s.n);
    OwnProgress(s.conns[i], step, s.n);
  }

  /** Steps of connection i in a run. */
  function StepsOf(acts: seq<Action>, i: nat): nat {
    if acts == [] then 0
    else (if acts[0].ConnStep? && acts[0].i == i then 1 else 0) + StepsOf(acts[1..], i)
  }

  lemma {:induction false} StepsAreBounded(s: Socket, acts: seq<Action>, t: Socket, i: nat)
    requires SocketInv(s) && Runs(s, acts, t) && i < |s.conns| && s.conns[i].newClosed
    ensures i < |t.conns| && t.conns[i].newClosed
    ensures StepsOf(acts, i) + OwnWork(t.conns[i], t.n) <= OwnWork(s.conns[i], s.n)
    decreases |acts|
  {
    if acts != [] {
      var a := acts[0];
      ActionKeeps(s, a);
      SameSize(s, a);
      if a.ConnStep? && a.i == i {
        OwnStep(s, i, a.step);
      } else {
        OthersLeaveAlone(s, a, i);
      }
      StepsAreBounded(Apply(s, a), acts[1..], t, i);
    }
  }

  lemma SameSize(s: Socket, a: Action)
    requires Enabled(s, a)
    ensures Apply(s, a).n == s.n
  {
  }

  // ---- Getting there -------------------------------------------------------------

  /** A step of the dispatcher, or of one of the goroutines of connection i. */
  predicate Helps(a: Action, i: nat) {
    || a.RefFor? || a.SendTo? || a.UnrefBase? || a.ClearBase? || a.CloseNew? || a == Rendezvous(i)
    || (a.ConnStep? && a.i == i && !a.step.ReadIndex? && !a.step.ReadTlv?)
  }

  /** A dispatcher that is not in its select can always take a step back to it, and in
      doing so only queues blocks for a connection. */
  lemma DispatcherReturns(s: Socket, i: nat) returns (a: Action)
    requires SocketInv(s) && !s.disp.Idle? && i < |s.conns| && s.disp != Unregistering(i)
    ensures Enabled(s, a) && Helps(a, i) && !a.ConnStep?
    ensures var t := Apply(s, a);
      && DispatcherWork(t.disp) < DispatcherWork(s.disp)
      && i < |t.conns| && t.conns[i] == s.conns[i].(newQ := t.conns[i].newQ) && t.n == s.n
  {
    match s.disp
    case Got(b, todo) =>
      assert BlockInv(s, b);
      if todo == {} {
        a := UnrefBase;
      } else {
        var to :| to in todo;
        a := RefFor(to);
      }
    case Sending(_, _, _) =>
      SendToFits(s);
      a := SendTo;
    case BaseClear(_) => a := ClearBase;
    case Unregistering(_) => a := CloseNew;
  }

  /** Before the rendezvous: close the socket, wait for the dispatcher, hand over. */
  lemma EarlyProgress(s: Socket, i: nat) returns (a: Action)
    requires SocketInv(s) && i < |s.conns| && (s.conns[i].pc.Close? || s.conns[i].pc.Offer?)
    ensures Enabled(s, a) && Helps(a, i)
    ensures var t := Apply(s, a);
      i < |t.conns| && Closing(t.conns[i].pc) && Work(t, i) < Work(s, i)
  {
    assert Inv(s.conns[i], s.n);
    if s.conns[i].pc.Close? {
      a := ConnStep(i, CloseSocket);
    } else if s.disp.Idle? {
      QueuedOnce(s.conns[i], s.n);
      a := Rendezvous(i);
    } else {
      a := DispatcherReturns(s, i);
    }
  }

  /** A connection past the rendezvous, not waiting for the close of newBlocks, has a step
      of its own, even if its reader is blocked on a full oldBlocks. */
  lemma OwnStepExists(c: Conn, n: nat, count: int) returns (a: Step)
    requires n > 0 && WellFormed(c, n) && PastRendezvous(c.pc) && !c.pc.Done?
    requires !(c.pc.DrainNew? && c.newQ == [] && !c.newClosed)
    ensures CanStep(c, a, n) && !a.ReadIndex? && !a.ReadTlv? && (a.Decrement? ==> a.refs == count - 1)
  {
    if c.pc.Unref? {
      a := Decrement(count - 1);
    } else if c.pc.Clear? {
      a := ClearStatus;
    } else if c.pc.DrainNew? {
      a := Drain;
    } else if c.pc.Release? {
      a := Sweep;
    } else if c.oldQ != [] || c.oldClosed {
      a := DrainReturn;
    } else {
      match c.reader
      case Reading => a := ReadFail;
      case Passing(_) => a := PassIndex;
      case Exiting => a := CloseOld;
    }
  }

  lemma StaysPast(c: Conn, a: Step, n: nat)
    requires PastRendezvous(c.pc) && CanStep(c, a, n) && (a.Decrement? ==> a.refs >= 0)
    ensures PastRendezvous(Next(c, a, n).pc)
  {
  }

  lemma CloseProgress(s: Socket, i: nat)
    requires SocketInv(s) && i < |s.conns| && s.disp == Unregistering(i) && s.conns[i].pc.DrainNew?
    ensures Enabled(s, CloseNew)
    ensures var t := Apply(s, CloseNew);
      i < |t.conns| && PastRendezvous(t.conns[i].pc) && Work(t, i) < Work(s, i)
  {
  }

  lemma OwnStepProgress(s: Socket, i: nat, step: Step)
    requires SocketInv(s) && Enabled(s, ConnStep(i, step)) && PastRendezvous(s.conns[i].pc)
    ensures var t := Apply(s, ConnStep(i, step));
      i < |t.conns| && PastRendezvous(t.conns[i].pc) && Work(t, i) < Work(s, i)
  {
    assert Inv(s.conns[i], s.n);
    if step.Decrement? {
      UnrefPositive(s, i);
    }
    ConnStepShape(s, i, step);
    OwnProgress(s.conns[i], step, s.n);
    StaysPast(s.conns[i], step, s.n);
  }

  lemma LateProgress(s: Socket, i: nat) returns (a: Action)
    requires SocketInv(s) && i < |s.conns| && PastRendezvous(s.conns[i].pc) && !s.conns[i].pc.Done?
    ensures Enabled(s, a) && Helps(a, i)
    ensures var t := Apply(s, a);
      i < |t.conns| && PastRendezvous(t.conns[i].pc) && Work(t, i) < Work(s, i)
  {
    var c := s.conns[i];
    assert Inv(c, s.n);
    if c.pc.DrainNew? && c.newQ == [] && !c.newClosed {
      assert s.disp == Unregistering(i);
      CloseProgress(s, i);
      a := CloseNew;
    } else {
      var step := OwnStepExists(c, s.n, if c.pc.Unref? then At(s.counts, c.pc.u) else 0);
      OwnStepProgress(s, i, step);
      a := ConnStep(i, step);
    }
  }

  lemma Progress(s: Socket, i: nat) returns (a: Action)
    requires SocketInv(s) && i < |s.conns| && Closing(s.conns[i].pc)
    ensures Enabled(s, a) && Helps(a, i) && SocketInv(Apply(s, a))
    ensures var t := Apply(s, a);
      i < |t.conns| && (Closing(t.conns[i].pc) || t.conns[i].pc.Done?) && Work(t, i) < Work(s, i)
  {
    if s.conns[i].pc.Close? || s.conns[i].pc.Offer? {
      a := EarlyProgress(s, i);
    } else {
      a := LateProgress(s, i);
    }
    ActionKeeps(s, a);
  }

  lemma {:induction false} ShutdownFinishes(s: Socket, i: nat) returns (acts: seq<Action>, t: Socket)
    requires SocketInv(s) && i < |s.conns| && (Closing(s.conns[i].pc) || s.conns[i].pc.Done?)
    ensures Runs(s, acts, t) && |acts| <= Work(s, i)
    ensures forall k :: 0 <= k < |acts| ==> Helps(acts[k], i)
    ensures i < |t.conns| && t.conns[i].pc.Done?
    decreases Work(s, i)
  {
    if s.conns[i].pc.Done? {
      acts, t := [], s;
    } else {
      var a := Progress(s, i);
      var rest: seq<Action>;
      rest, t := ShutdownFinishes(Apply(s, a), i);
      acts := [a] + rest;
      assert acts[1..] == rest;
    }
  }

  lemma {:induction false} SubsetSize(xs: set<nat>, m: nat)
    requires forall x :: x in xs ==> x < m
    ensures |xs| <= m
  {
    if m == 0 {
      assert xs == {};
    } else {
      SubsetSize(xs - {m - 1}, m - 1);
    }
  }

  lemma DispatcherBound(s: Socket)
    requires Registered(s)
    ensures DispatcherWork(s.disp) <= 2 * |s.conns| + 3
  {
    if s.disp.Got? || s.disp.Sending? {
      forall x | x in s.disp.todo ensures x < |s.conns| {
        assert Owed(s.disp, x);
      }
      SubsetSize(s.disp.todo, |s.conns|);
    }
  }

  /** The bound in terms of the numbers of blocks and connections. */
  lemma WorkBound(s: Socket, i: nat)
    requires SocketInv(s) && i < |s.conns|
    ensures Work(s, i) <= 2 * |s.conns| + 7 * s.n + 15
  {
    assert Inv(s.conns[i], s.n);
    QueuedOnce(s.conns[i], s.n);
    DispatcherBound(s);
  }

  /** Shutdown cannot get stuck: from every reachable state in which connection i has left
      its loop, there is a run of the dispatcher and its own goroutines alone that ends
      with `run` done, within a number of steps linear in blocks and connections. */
  lemma ShutdownCannotStick(s: Socket, i: nat) returns (acts: seq<Action>, t: Socket)
    requires Reachable(s) && i < |s.conns| && Closing(s.conns[i].pc)
    ensures Runs(s, acts, t) && i < |t.conns| && t.conns[i].pc.Done?
    ensures forall k :: 0 <= k < |acts| ==> Helps(acts[k], i)
    ensures |acts| <= 2 * |s.conns| + 7 * s.n + 15
  {
    ReachableInv(s);
    acts, t := ShutdownFinishes(s, i);
    WorkBound(s, i);
  }

  /** No schedule keeps an unregistered connection busy: in every run from a reachable state,
      whatever everyone else does, its two goroutines make at most OwnWork steps, and it is
      done once they have made that many. */
  lemma NoEndlessShutdown(s: Socket, acts: seq<Action>, t: Socket, i: nat)
    requires Reachable(s) && Runs(s, acts, t) && i < |s.conns| && s.conns[i].newClosed
    ensures i < |t.conns| && StepsOf(acts, i) <= OwnWork(s.conns[i], s.n)
    ensures StepsOf(acts, i) == OwnWork(s.conns[i], s.n) ==> t.conns[i].pc.Done?
  {
    ReachableInv(s);
    StepsAreBounded(s, acts, t, i);
    RunKeeps(s, acts, t);
    assert Inv(t.conns[i], t.n);
  }
}
