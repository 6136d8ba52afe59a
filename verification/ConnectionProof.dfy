/** Every step of a connection keeps `Connection.Inv`, one lemma for each kind of step. */
module ConnectionProof {
  import opened Connection

  // ---- Small facts -------------------------------------------------------

  lemma PopMultiset(q: seq<nat>)
    requires q != []
    ensures multiset(q) == multiset{q[0]} + multiset(q[1..])
  {
    assert q == [q[0]] + q[1..];
  }

  lemma PrefixMultiset(p: seq<nat>, q: seq<nat>, b: nat)
    requires p <= q
    ensures multiset(p)[b] <= multiset(q)[b]
  {
    assert q == p + q[|p|..];
  }

  ghost predicate SameRefs(c: Conn, d: Conn) {
    forall b: nat :: Refs(d, b) == Refs(c, b)
  }

  // ---- Dequeueing --------------------------------------------------------

  lemma DequeueWindow(c: Conn, next: Pc, n: nat)
    requires n > 0 && Window(c, n) && c.newQ != []
    ensures Window(Dequeue(c, next), n)
  {
  }

  lemma DequeueRefs(c: Conn, next: Pc, b: nat)
    requires c.newQ != [] && !Sweeping(c.pc) && !c.pc.Received? && !c.pc.Unref?
    requires next == Received(c.newQ[0]) || next == Unref(c.newQ[0], ToDrain)
    ensures var d := Dequeue(c, next);
      && InHand(d, b) == InHand(c, b) + (if b == c.newQ[0] then 1 else 0)
      && Refs(d, b) == Refs(c, b)
      && multiset(d.log.got)[b] == multiset(c.log.got)[b] + (if b == c.newQ[0] then 1 else 0)
  {
    PopMultiset(c.newQ);
  }

  // ---- One lemma for each kind of step ------------------------------------

  /** A change of the program counter that moves no reference. */
  ghost predicate Moves(c: Conn, pc: Pc) {
    && !pc.Received? && !pc.Unref? && !c.pc.Unref? && (InLoop(pc) ==> InLoop(c.pc))
    && forall b: nat :: InHand(c.(pc := pc), b) == InHand(c, b)
  }

  lemma MoveAccounts(c: Conn, pc: Pc, x: nat)
    requires Moves(c, pc) && Accounts(c, x)
    ensures Accounts(c.(pc := pc), x) && Refs(c.(pc := pc), x) == Refs(c, x)
  {
  }

  lemma MoveKeeps(c: Conn, pc: Pc, n: nat)
    requires Inv(c, n) && WellFormed(c.(pc := pc), n) && Moves(c, pc)
    requires InLoop(pc) ==> Unwritten(c.(pc := pc)) == Unwritten(c)
    requires pc.Poll? || pc.Write? ==> c.pc.Poll?
    ensures Inv(c.(pc := pc), n) && SameRefs(c, c.(pc := pc))
  {
    forall x: nat ensures Accounts(c.(pc := pc), x) && Refs(c.(pc := pc), x) == Refs(c, x) {
      assert Accounts(c, x);
      MoveAccounts(c, pc, x);
    }
  }

  lemma ReceiveKeeps(c: Conn, n: nat)
    requires Inv(c, n) && c.newQ != []
    requires c.pc.Poll? || (c.pc.Select? && c.out == [])
    ensures Inv(Receive(c), n) && SameRefs(c, Receive(c))
  {
    var d := Receive(c);
    forall x: nat ensures Accounts(d, x) && Refs(d, x) == Refs(c, x) {
      assert Accounts(c, x);
      DequeueRefs(c, Received(c.newQ[0]), x);
    }
    assert d.log.got == d.log.written + Unwritten(d);
  }

  /** `out = out[:0]`. */
  lemma ResetOutKeeps(c: Conn, n: nat)
    requires Inv(c, n) && c.pc.Select?
    ensures Inv(c.(out := []), n) && SameRefs(c, c.(out := []))
  {
    forall x: nat ensures Accounts(c.(out := []), x) && Refs(c.(out := []), x) == Refs(c, x) {
      assert Accounts(c, x);
    }
  }

  lemma DrainKeeps(c: Conn, n: nat)
    requires Inv(c, n) && c.newQ != [] && c.pc.DrainNew?
    ensures var d := Dequeue(c, Unref(c.newQ[0], ToDrain)); Inv(d, n) && SameRefs(c, d)
  {
    var d := Dequeue(c, Unref(c.newQ[0], ToDrain));
    forall x: nat ensures Accounts(d, x) && Refs(d, x) == Refs(c, x) {
      assert Accounts(c, x);
      DequeueRefs(c, Unref(c.newQ[0], ToDrain), x);
    }
  }

  lemma MarkBatching(c: Conn, b: nat, n: nat)
    requires WellFormed(c, n) && Batching(c) && c.pc == Received(b) && b !in c.outstanding
    ensures WellFormed(MarkBlock(c, b), n) && Batching(MarkBlock(c, b))
  {
  }

  lemma MarkKeeps(c: Conn, b: nat, n: nat)
    requires Inv(c, n) && c.pc == Received(b)
    ensures Inv(MarkBlock(c, b), n) && SameRefs(c, MarkBlock(c, b))
  {
    assert Accounts(c, b);
    MarkBatching(c, b, n);
    forall x: nat ensures Accounts(MarkBlock(c, b), x) && Refs(MarkBlock(c, b), x) == Refs(c, x) {
      assert Accounts(c, x);
    }
  }

  lemma TransferBatching(c: Conn, w: nat, n: nat)
    requires WellFormed(c, n) && Batching(c) && c.pc == Write(w) && w < |c.out|
    ensures WellFormed(TransferOne(c, w), n) && Batching(TransferOne(c, w))
  {
  }

  /** In the loop, a block is dequeued at most once more than it came back. */
  lemma LoopBound(c: Conn, b: nat)
    requires InLoop(c.pc) && Accounts(c, b)
    ensures multiset(c.log.got)[b] <= multiset(c.log.passed)[b] + 1
  {
  }

  lemma TransferKeeps(c: Conn, w: nat, n: nat)
    requires Inv(c, n) && c.pc == Write(w) && w < |c.out|
    ensures Inv(TransferOne(c, w), n) && SameRefs(c, TransferOne(c, w))
  {
    var d := TransferOne(c, w);
    TransferBatching(c, w, n);
    forall x: nat ensures Accounts(d, x) && Refs(d, x) == Refs(c, x) {
      assert Accounts(c, x);
      LoopBound(c, x);
      PrefixMultiset(d.log.written, c.log.got, x);
    }
  }

  lemma LeaveKeeps(c: Conn, why: Ending, n: nat)
    requires Inv(c, n) && !why.Running? && (c.pc.Select? || c.pc.Write?)
    ensures Inv(LeaveLoop(c, why), n) && SameRefs(c, LeaveLoop(c, why))
  {
    var d := LeaveLoop(c, why);
    forall x: nat ensures Accounts(d, x) && Refs(d, x) == Refs(c, x) {
      assert Accounts(c, x);
    }
  }

  /** A returned index that is not outstanding: the loop ends, nothing is released. */
  lemma ReturnNothing(c: Conn, why: Ending, n: nat)
    requires Inv(c, n) && c.pc.Select? && c.oldQ != [] && !why.Running?
    ensures var d := LeaveLoop(c.(oldQ := c.oldQ[1..]), why); Inv(d, n) && SameRefs(c, d)
  {
    var d := LeaveLoop(c.(oldQ := c.oldQ[1..]), why);
    forall x: nat ensures Accounts(d, x) && Refs(d, x) == Refs(c, x) {
      assert Accounts(c, x);
    }
  }

  /** The connection with the returned block i about to be unref'd. */
  function TakenBack(c: Conn, i: nat): Conn
    requires c.oldQ != []
  {
    c.(oldQ := c.oldQ[1..], outstanding := c.outstanding - {i}, pc := Unref(i, ToSelect))
  }

  lemma ReturnAccounts(c: Conn, i: nat, x: nat)
    requires c.pc.Select? && c.oldQ != [] && c.oldQ[0] == i + 1 && i in c.outstanding && Accounts(c, x)
    ensures Accounts(TakenBack(c, i), x) && Refs(TakenBack(c, i), x) == Refs(c, x)
  {
    PopMultiset(c.oldQ);
  }

  lemma ReturnOutstanding(c: Conn, i: nat, n: nat)
    requires Inv(c, n) && c.pc.Select? && c.oldQ != [] && c.oldQ[0] == i + 1
    requires i in c.outstanding
    ensures Inv(HandleReturn(c, n), n) && SameRefs(c, HandleReturn(c, n))
  {
    var d := TakenBack(c, i);
    assert HandleReturn(c, n) == d;
    forall x: nat ensures Accounts(d, x) && Refs(d, x) == Refs(c, x) {
      assert Accounts(c, x);
      ReturnAccounts(c, i, x);
    }
  }

  lemma HandleReturnKeeps(c: Conn, n: nat)
    requires Inv(c, n) && c.pc.Select?
    ensures Inv(HandleReturn(c, n), n) && SameRefs(c, HandleReturn(c, n))
  {
    if c.oldQ == [] {
      LeaveKeeps(c, ReaderGone, n);
    } else {
      assert 1 <= c.oldQ[0] <= n;
      if c.oldQ[0] - 1 in c.outstanding {
        ReturnOutstanding(c, c.oldQ[0] - 1, n);
      } else {
        ReturnNothing(c, NotOutstanding, n);
      }
    }
  }

  lemma DecrementAccounts(c: Conn, u: nat, resume: Resume, refs: nat, x: nat)
    requires c.pc == Unref(u, resume) && Accounts(c, x) && (resume.ToRelease? ==> resume.next == u + 1)
    ensures var d := AfterDecrement(c, u, resume, refs);
      Accounts(d, x) && Refs(d, x) == Refs(c, x) - (if x == u then 1 else 0)
  {
  }

  lemma DecrementKeeps(c: Conn, u: nat, resume: Resume, refs: nat, n: nat)
    requires Inv(c, n) && c.pc == Unref(u, resume)
    ensures var d := AfterDecrement(c, u, resume, refs);
      && Inv(d, n)
      && forall x: nat :: Refs(d, x) == Refs(c, x) - (if x == u then 1 else 0)
  {
    forall x: nat ensures Accounts(AfterDecrement(c, u, resume, refs), x)
      && Refs(AfterDecrement(c, u, resume, refs), x) == Refs(c, x) - (if x == u then 1 else 0) {
      assert Accounts(c, x);
      DecrementAccounts(c, u, resume, refs, x);
    }
  }

  lemma SweepKeeps(c: Conn, i: nat, n: nat)
    requires Inv(c, n) && c.pc == Release(i)
    ensures Inv(SweepEntry(c, i, n), n) && SameRefs(c, SweepEntry(c, i, n))
  {
    var d := SweepEntry(c, i, n);
    forall x: nat ensures Accounts(d, x) && Refs(d, x) == Refs(c, x) {
      assert Accounts(c, x);
    }
  }

  /** Steps of the reader move no reference. */
  lemma ReaderKeeps(c: Conn, d: Conn, n: nat)
    requires Inv(c, n) && WellFormed(d, n)
    requires d == c.(reader := d.reader, oldQ := d.oldQ, oldClosed := d.oldClosed,
                     log := c.log.(passed := d.log.passed, readEnding := d.log.readEnding))
    requires c.log.passed <= d.log.passed
    requires InLoop(c.pc) ==>
      forall b: nat :: multiset(d.log.passed)[b] + InFlight(c, b) == multiset(c.log.passed)[b] + InFlight(d, b)
    ensures Inv(d, n) && SameRefs(c, d)
  {
    forall x: nat ensures Accounts(d, x) && Refs(d, x) == Refs(c, x) {
      assert Accounts(c, x);
      PrefixMultiset(c.log.passed, d.log.passed, x);
    }
  }

  lemma StartWriteKeeps(c: Conn, n: nat)
    requires Inv(c, n) && c.pc.Poll?
    ensures Inv(c.(pc := Write(0)), n) && SameRefs(c, c.(pc := Write(0)))
  {
    assert c.out[0..] == c.out;
    MoveKeeps(c, Write(0), n);
  }

  lemma ResumeKeeps(c: Conn, n: nat)
    requires Inv(c, n) && c.pc.Clear?
    ensures Inv(c.(pc := Resumed(c.pc.resume)), n) && SameRefs(c, c.(pc := Resumed(c.pc.resume)))
  {
    MoveKeeps(c, Resumed(c.pc.resume), n);
  }

  lemma ReadIndexKeeps(c: Conn, num: nat, n: nat)
    requires Inv(c, n) && c.reader.Reading? && !SockClosed(c.pc)
    ensures Inv(HandleIndex(c, num, n), n) && SameRefs(c, HandleIndex(c, num, n))
  {
    ReaderKeeps(c, HandleIndex(c, num, n), n);
  }

  lemma PassKeeps(c: Conn, n: nat)
    requires Inv(c, n) && CanStep(c, PassIndex, n)
    ensures Inv(Pass(c, c.reader.v), n) && SameRefs(c, Pass(c, c.reader.v))
  {
    ReaderKeeps(c, Pass(c, c.reader.v), n);
  }

  lemma CloseReturnsKeeps(c: Conn, n: nat)
    requires Inv(c, n) && c.reader.Exiting?
    ensures Inv(CloseReturns(c), n) && SameRefs(c, CloseReturns(c))
  {
    ReaderKeeps(c, CloseReturns(c), n);
  }

  lemma DrainReturnKeeps(c: Conn, n: nat)
    requires Inv(c, n) && c.pc.DrainOld? && c.oldQ != []
    ensures Inv(c.(oldQ := c.oldQ[1..]), n) && SameRefs(c, c.(oldQ := c.oldQ[1..]))
  {
    ReaderKeeps(c, c.(oldQ := c.oldQ[1..]), n);
  }

  ghost predicate StepOk(c: Conn, a: Step, n: nat) {
    Inv(c, n) && CanStep(c, a, n) && (a.Decrement? ==> a.refs >= 0)
  }

  ghost predicate Kept(c: Conn, a: Step, n: nat)
    requires CanStep(c, a, n)
  {
    && Inv(Next(c, a, n), n)
    && forall b: nat :: Refs(Next(c, a, n), b) == Refs(c, b) - (if a.Decrement? && b == c.pc.u then 1 else 0)
  }

  lemma NewBlockStep(c: Conn, a: Step, n: nat)
    requires StepOk(c, a, n) && (a.TakeNew? || a.Mark? || a.PollNew?)
    ensures Kept(c, a, n)
  {
    match a
    case TakeNew =>
      ResetOutKeeps(c, n);
      ReceiveKeeps(c.(out := []), n);
    case Mark => MarkKeeps(c, c.pc.b, n);
    case PollNew =>
      if c.newQ != [] { ReceiveKeeps(c, n); } else { StartWriteKeeps(c, n); }
  }

  lemma WriteStep(c: Conn, a: Step, n: nat)
    requires StepOk(c, a, n) && (a.Transfer? || a.WriteDone? || a.WriteFail?)
    ensures Kept(c, a, n)
  {
    match a
    case Transfer => TransferKeeps(c, c.pc.w, n);
    case WriteDone => MoveKeeps(c, Select, n);
    case WriteFail => LeaveKeeps(c, WriteFailed, n);
  }

  lemma ReturnStep(c: Conn, a: Step, n: nat)
    requires StepOk(c, a, n) && (a.TakeOld? || a.Decrement? || a.ClearStatus?)
    ensures Kept(c, a, n)
  {
    match a
    case TakeOld => HandleReturnKeeps(c, n);
    case Decrement(refs) => DecrementKeeps(c, c.pc.u, c.pc.resume, refs, n);
    case ClearStatus => ResumeKeeps(c, n);
  }

  lemma ShutdownStep(c: Conn, a: Step, n: nat)
    requires StepOk(c, a, n) && (a.CloseSocket? || a.Drain? || a.DrainReturn? || a.Sweep?)
    ensures Kept(c, a, n)
  {
    match a
    case CloseSocket => MoveKeeps(c, Offer, n);
    case Drain =>
      if c.newQ == [] { MoveKeeps(c, DrainOld, n); } else { DrainKeeps(c, n); }
    case DrainReturn =>
      if c.oldQ == [] { MoveKeeps(c, Release(0), n); } else { DrainReturnKeeps(c, n); }
    case Sweep => SweepKeeps(c, c.pc.i, n);
  }

  lemma ReaderStep(c: Conn, a: Step, n: nat)
    requires StepOk(c, a, n) && (a.ReadIndex? || a.ReadTlv? || a.ReadFail? || a.PassIndex? || a.CloseOld?)
    ensures Kept(c, a, n)
  {
    match a
    case ReadIndex(num) => ReadIndexKeeps(c, num, n);
    case ReadTlv =>
    case ReadFail => ReaderKeeps(c, c.(reader := Exiting, log := c.log.(readEnding := ReadFailed)), n);
    case PassIndex => PassKeeps(c, n);
    case CloseOld => CloseReturnsKeeps(c, n);
  }

  /** Every step of a connection keeps its invariant, and only a decrement changes
      what it has to give back.  The one thing a connection needs from outside is
      that a decrement does not go below zero. */
  lemma StepInv(c: Conn, a: Step, n: nat)
    requires Inv(c, n) && CanStep(c, a, n) && (a.Decrement? ==> a.refs >= 0)
    ensures Inv(Next(c, a, n), n)
    ensures forall b: nat :: Refs(Next(c, a, n), b) == Refs(c, b) - (if a.Decrement? && b == c.pc.u then 1 else 0)
  {
    if a.TakeNew? || a.Mark? || a.PollNew? {
      NewBlockStep(c, a, n);
    } else if a.Transfer? || a.WriteDone? || a.WriteFail? {
      WriteStep(c, a, n);
    } else if a.TakeOld? || a.Decrement? || a.ClearStatus? {
      ReturnStep(c, a, n);
    } else if a.CloseSocket? || a.Drain? || a.DrainReturn? || a.Sweep? {
      ShutdownStep(c, a, n);
    } else {
      ReaderStep(c, a, n);
    }
  }

  /** The cyclic window is kept by every step, whatever the rest of the state. */
  lemma StepWindow(c: Conn, a: Step, n: nat)
    requires n > 0 && Window(c, n) && CanStep(c, a, n)
    ensures Window(Next(c, a, n), n)
    ensures |Next(c, a, n).log.got| + |Next(c, a, n).newQ| == |c.log.got| + |c.newQ|
    ensures Next(c, a, n).log.joined == c.log.joined && Next(c, a, n).newClosed == c.newClosed
  {
    if c.newQ != [] {
      if a.TakeNew? {
        DequeueWindow(c.(out := []), Received(c.newQ[0]), n);
      } else if a.PollNew? {
        DequeueWindow(c, Received(c.newQ[0]), n);
      } else if a.Drain? {
        DequeueWindow(c, Unref(c.newQ[0], ToDrain), n);
      }
    }
  }

  lemma StepPending(c: Conn, a: Step, n: nat, b: nat)
    requires CanStep(c, a, n)
    ensures Pending(Next(c, a, n), b) ==
            Pending(c, b)
            + (if a.Decrement? && a.refs == 0 && c.pc.u == b then 1 else 0)
            - (if a.ClearStatus? && c.pc.u == b then 1 else 0)
  {
  }

  // ---- What the dispatcher does to a connection ------------------------------

  /** Queueing a block to which the connection has no reference. */
  lemma PushKeeps(c: Conn, b: nat, n: nat)
    requires Inv(c, n) && b < n && !c.newClosed && Refs(c, b) == 0
    ensures Inv(Push(c, b), n)
    ensures forall x: nat :: Refs(Push(c, b), x) == Refs(c, x) + (if x == b then 1 else 0)
  {
    var d := Push(c, b);
    forall x: nat ensures Accounts(d, x) && Refs(d, x) == Refs(c, x) + (if x == b then 1 else 0) {
      assert Accounts(c, x);
    }
  }

  /** No block is queued twice, so there are at most n. */
  lemma QueuedOnce(c: Conn, n: nat)
    requires Inv(c, n)
    ensures Distinct(c.newQ) && |c.newQ| <= n
  {
    forall j, k | 0 <= j < k < |c.newQ| ensures c.newQ[j] != c.newQ[k] {
      assert Accounts(c, c.newQ[j]);
      if c.newQ[j] == c.newQ[k] {
        TwiceIn(c.newQ, j, k);
      }
    }
    Pigeonhole(c.newQ, n);
  }

  /** A queue without repeats of indexes below n, and lacking one of them, is not full. */
  lemma PushFits(c: Conn, b: nat, n: nat)
    requires Inv(c, n) && b < n && Refs(c, b) == 0
    ensures |c.newQ| < n
  {
    QueuedOnce(c, n);
    assert b !in c.newQ;
    Pigeonhole(c.newQ + [b], n);
  }

  lemma TwiceIn(q: seq<nat>, j: nat, k: nat)
    requires j < k < |q| && q[j] == q[k]
    ensures multiset(q)[q[j]] >= 2
  {
    assert q == q[..k] + q[k..];
    assert q[..k][j] in q[..k];
    assert q[k..][0] in q[k..];
  }

  /** Pigeonhole: distinct numbers below n are at most n. */
  lemma {:induction false} Pigeonhole(q: seq<nat>, n: nat)
    requires Distinct(q) && forall k :: 0 <= k < |q| ==> q[k] < n
    ensures |q| <= n
  {
    if q != [] {
      assert q[0] < n;
      if n - 1 in q {
        var k :| 0 <= k < |q| && q[k] == n - 1;
        Pigeonhole(q[..k] + q[k + 1..], n - 1);
      } else {
        Pigeonhole(q, n - 1);
      }
    }
  }

  lemma RendezvousKeeps(c: Conn, n: nat)
    requires Inv(c, n) && c.pc.Offer?
    ensures Inv(c.(pc := DrainNew), n) && SameRefs(c, c.(pc := DrainNew))
  {
    MoveKeeps(c, DrainNew, n);
  }

  lemma CloseNewKeeps(c: Conn, n: nat)
    requires Inv(c, n) && Draining(c.pc)
    ensures Inv(c.(newClosed := true), n) && SameRefs(c, c.(newClosed := true))
  {
    var d := c.(newClosed := true);
    forall x: nat ensures Accounts(d, x) && Refs(d, x) == Refs(c, x) {
      assert Accounts(c, x);
    }
  }
}
