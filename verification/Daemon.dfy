/**
 The socket as an object that its goroutines update in place: the reference counts and
 status words are arrays, the channels and currentConns are fields.  The handlers are one
 atomic step each; where the source panics or drops a block, the branch is there and is
 shown to be dead.  `Perform` runs them under any schedule and is proved to follow the
 transition system, and `Broadcast` is a whole broadcast.
 */
module Daemon {
  import opened Connection
  import opened Socket
  import opened SocketProof

  /** Block b has been queued for exactly the connections in `done`. */
  ghost predicate Served(before: seq<Conn>, now: seq<Conn>, done: set<nat>, b: nat) {
    && |now| == |before|
    && forall i: nat :: i < |now| ==> now[i] == if i in done then Push(before[i], b) else before[i]
  }

  lemma ServedStep(before: seq<Conn>, now: seq<Conn>, all: set<nat>, todo: set<nat>, to: nat, b: nat)
    requires Served(before, now, all - todo, b) && to in todo && todo <= all
    ensures to < |now| ==> Served(before, now[to := Push(now[to], b)], all - (todo - {to}), b)
    ensures |todo - {to}| == |todo| - 1
  {
  }

  /** The actions of a schedule that do not block. */
  function Unblocked(s: Socket, acts: seq<Action>): seq<Action>
    decreases |acts|
  {
    if acts == [] then []
    else if Enabled(s, acts[0]) then [acts[0]] + Unblocked(Apply(s, acts[0]), acts[1..])
    else Unblocked(s, acts[1..])
  }

  /** Of a run nothing is passed over. */
  lemma {:induction false} RunIsUnblocked(s: Socket, acts: seq<Action>, t: Socket)
    requires Runs(s, acts, t)
    ensures Unblocked(s, acts) == acts
    decreases |acts|
  {
    if acts != [] {
      RunIsUnblocked(Apply(s, acts[0]), acts[1..], t);
    }
  }

  class Daemon {
    const n: Size
    var r: array<int>
    var status: array<bool>
    var producer: ProducerPc
    var blockIndex: nat
    var newBlocks: seq<nat>
    var disp: Dispatcher
    var currentConns: set<nat>
    var conns: seq<Conn>
    var hist: History

    ghost function View(): Socket
      reads this, r, status
    {
      Socket(n, r[..], status[..], producer, blockIndex, newBlocks, disp, currentConns, conns, hist)
    }

    ghost predicate Valid()
      reads this, r, status
    {
      r as object != status && SocketInv(View())
    }

    /** newSocket. */
    constructor (n: Size)
      ensures View() == Init(n) && Valid() && fresh(r) && fresh(status)
    {
      this.n := n;
      r := new int[n](_ => 0);
      status := new bool[n](_ => false);
      producer, blockIndex, newBlocks := PollCount, 0, [];
      disp, currentConns, conns := Idle, {}, [];
      hist := History(0, 0, 0, Zeros(n), Zeros(n));
      new;
      assert r[..] == Zeros(n);
      assert status[..] == seq(n, _ => false);
      InitInv(n);
    }

    // ---- getNewBlocks -------------------------------------------------------

    /** The two loads of ready() and the ref(), each atomic. */
    method LoadCount()
      requires Valid() && producer.PollCount?
      modifies this`producer
      ensures Valid() && View() == Apply(old(View()), Action.LoadCount)
    {
      ActionKeeps(View(), Action.LoadCount);
      producer := if r[blockIndex] == 0 then PollStatus else PollCount;
    }

    method LoadStatus()
      requires Valid() && producer.PollStatus?
      modifies this`producer
      ensures Valid() && View() == Apply(old(View()), Action.LoadStatus)
    {
      ActionKeeps(View(), Action.LoadStatus);
      producer := if status[blockIndex] then Take else PollCount;
    }

    method TakeRef()
      requires Valid() && producer.Take?
      modifies this`producer, this`hist, r
      ensures Valid() && View() == Apply(old(View()), Action.TakeRef)
    {
      ActionKeeps(View(), Action.TakeRef);
      ghost var was := r[..];
      r[blockIndex] := r[blockIndex] + 1;
      assert r[..] == Add(was, blockIndex, 1);
      producer := Hold;
      hist := hist.(taken := Add(hist.taken, blockIndex, 1));
    }

    /** s.newBlocks <- b, which does not block. */
    method SendBlock()
      requires Valid() && producer.Hold?
      modifies this`producer, this`newBlocks, this`blockIndex, this`hist
      ensures Enabled(old(View()), Action.SendBlock)
      ensures Valid() && View() == Apply(old(View()), Action.SendBlock)
    {
      QueueFits(View());
      ActionKeeps(View(), Action.SendBlock);
      newBlocks := newBlocks + [blockIndex];
      blockIndex := (blockIndex + 1) % n;
      producer := PollCount;
      hist := hist.(sent := hist.sent + 1);
    }

    // ---- socket.run ---------------------------------------------------------

    /** addNewConn. */
    method Accept()
      requires Valid() && disp.Idle?
      modifies this`conns, this`currentConns
      ensures Valid() && View() == Apply(old(View()), Action.Accept)
    {
      ActionKeeps(View(), Action.Accept);
      currentConns := currentConns + {|conns|};
      conns := conns + [NewConn(hist.dispatched)];
    }

    /** case b := <-s.newBlocks. */
    method Dispatch()
      requires Valid() && disp.Idle? && newBlocks != []
      modifies this`disp, this`newBlocks, this`hist
      ensures Valid() && View() == Apply(old(View()), Action.Dispatch)
    {
      ActionKeeps(View(), Action.Dispatch);
      disp := Got(newBlocks[0], currentConns);
      newBlocks := newBlocks[1..];
      hist := hist.(dispatched := hist.dispatched + 1);
    }

    /** b.ref() for the next connection of the range. */
    method RefFor(to: nat)
      requires Valid() && disp.Got? && to in disp.todo
      modifies this`disp, r
      ensures Valid() && View() == Apply(old(View()), Action.RefFor(to))
    {
      ActionKeeps(View(), Action.RefFor(to));
      ghost var was := r[..];
      r[disp.b] := r[disp.b] + 1;
      assert r[..] == Add(was, disp.b, 1);
      disp := Sending(disp.b, disp.todo - {to}, to);
    }

    /** The select inside the range; its default is never taken. */
    method SendTo()
      requires Valid() && disp.Sending?
      modifies this`disp, this`conns
      ensures Enabled(old(View()), Action.SendTo)
      ensures Valid() && View() == Apply(old(View()), Action.SendTo)
    {
      SendToKeeps(View());
      SendToFits(View());
      var c := conns[disp.to];
      if |c.newQ| < n {
        conns := conns[disp.to := Push(c, disp.b)];
        disp := Got(disp.b, disp.todo);
      } else {
        assert false;
      }
    }

    /** The b.unref() after the range: the decrement, with its panic. */
    method UnrefBase()
      requires Valid() && disp.Got? && disp.todo == {}
      modifies this`disp, r
      ensures Valid() && View() == Apply(old(View()), Action.UnrefBase)
    {
      ActionKeeps(View(), Action.UnrefBase);
      assert BlockInv(View(), disp.b);
      ghost var was := r[..];
      r[disp.b] := r[disp.b] - 1;
      assert r[..] == Add(was, disp.b, -1);
      if r[disp.b] == 0 {
        disp := BaseClear(disp.b);
      } else if r[disp.b] < 0 {
        assert false;
      } else {
        disp := Idle;
      }
    }

    /** clear(). */
    method ClearBase()
      requires Valid() && disp.BaseClear?
      modifies this`disp, this`hist, status
      ensures Valid() && View() == Apply(old(View()), Action.ClearBase)
    {
      ActionKeeps(View(), Action.ClearBase);
      ghost var was := status[..];
      status[disp.b] := false;
      assert status[..] == Put(was, disp.b, false);
      hist := hist.(cleared := Add(hist.cleared, disp.b, 1));
      disp := Idle;
    }

    /** case c := <-s.oldConns. */
    method Rendezvous(who: nat)
      requires Valid() && Enabled(View(), Action.Rendezvous(who))
      modifies this`disp, this`conns
      ensures Valid() && View() == Apply(old(View()), Action.Rendezvous(who))
    {
      ActionKeeps(View(), Action.Rendezvous(who));
      disp := Unregistering(who);
      conns := conns[who := conns[who].(pc := DrainNew)];
    }

    /** close(c.newBlocks), which has not been closed before, and delete. */
    method CloseNew()
      requires Valid() && disp.Unregistering?
      modifies this`disp, this`conns, this`currentConns
      ensures Enabled(old(View()), Action.CloseNew)
      ensures Valid() && View() == Apply(old(View()), Action.CloseNew)
    {
      CloseNewKeepsAll(View());
      var who := disp.who;
      if conns[who].newClosed {
        assert false;
      }
      currentConns := currentConns - {who};
      conns := conns[who := conns[who].(newClosed := true)];
      disp := Idle;
    }

    // ---- conn.run and handleReads --------------------------------------------

    /** A step of connection i; a decrement and a clear act on the shared block. */
    method StepOf(i: nat, step: Step)
      requires Valid() && Enabled(View(), ConnStep(i, step))
      modifies this`conns, this`hist, r, status
      ensures Valid() && View() == Apply(old(View()), ConnStep(i, step))
    {
      ActionKeeps(View(), ConnStep(i, step));
      ConnStepShape(View(), i, step);
      ghost var counts, statuses := r[..], status[..];
      var c := conns[i];
      if step.Decrement? {
        r[c.pc.u] := r[c.pc.u] - 1;
        assert r[..] == Add(counts, c.pc.u, -1);
      } else if step.ClearStatus? {
        status[c.pc.u] := false;
        assert status[..] == Put(statuses, c.pc.u, false);
        hist := hist.(cleared := Add(hist.cleared, c.pc.u, 1));
      }
      conns := conns[i := Next(c, step, n)];
    }

    // ---- Any schedule ----------------------------------------------------------

    /** block_status is set by the kernel. */
    method KernelFill(b: nat)
      requires Valid() && b < n && !status[b]
      modifies status
      ensures Valid() && View() == Apply(old(View()), Action.KernelFill(b))
    {
      ActionKeeps(View(), Action.KernelFill(b));
      ghost var was := status[..];
      status[b] := true;
      assert status[..] == Put(was, b, true);
    }

    /** Whether the goroutine whose action this is can go on. */
    method CanAct(a: Action) returns (ok: bool)
      requires Valid()
      ensures ok <==> Enabled(View(), a)
    {
      match a
      case KernelFill(b) => return b < n && !status[b];
      case LoadCount => return producer.PollCount?;
      case LoadStatus => return producer.PollStatus?;
      case TakeRef => return producer.Take?;
      case SendBlock => return producer.Hold? && |newBlocks| < n;
      case Accept => return disp.Idle?;
      case Dispatch => return disp.Idle? && newBlocks != [];
      case RefFor(to) => return disp.Got? && to in disp.todo;
      case SendTo => return disp.Sending? && disp.to < |conns|;
      case UnrefBase => return disp.Got? && disp.todo == {};
      case ClearBase => return disp.BaseClear?;
      case Rendezvous(who) => return disp.Idle? && who < |conns| && conns[who].pc.Offer?;
      case CloseNew => return disp.Unregistering? && disp.who < |conns|;
      case ConnStep(i, step) =>
        if i >= |conns| || !CanStep(conns[i], step, n) {
          return false;
        }
        assert Inv(conns[i], n);
        return step.Decrement? ==> step.refs == r[conns[i].pc.u] - 1;
      case _ => return false;  // the broadcast has dropped nothing
    }

    method Act(a: Action)
      requires Valid() && Enabled(View(), a)
      modifies this`producer, this`blockIndex, this`newBlocks, this`disp, this`currentConns, this`conns, this`hist, r, status
      ensures Valid() && View() == Apply(old(View()), a)
    {
      match a
      case KernelFill(b) => KernelFill(b);
      case LoadCount => LoadCount();
      case LoadStatus => LoadStatus();
      case TakeRef => TakeRef();
      case SendBlock => SendBlock();
      case Accept => Accept();
      case Dispatch => Dispatch();
      case RefFor(to) => RefFor(to);
      case SendTo => SendTo();
      case UnrefBase => UnrefBase();
      case ClearBase => ClearBase();
      case Rendezvous(who) => Rendezvous(who);
      case CloseNew => CloseNew();
      case ConnStep(i, step) => StepOf(i, step);
      case _ => assert false;
    }

    /** The goroutines under an arbitrary schedule, in which an action that would block is
        passed over: whatever the schedule, what was done is a run of the transition system
        from the old state to the new one, so that every theorem about runs holds of the
        arrays and channels of this object. */
    method Perform(acts: seq<Action>) returns (done: seq<Action>)
      requires Valid()
      modifies this`producer, this`blockIndex, this`newBlocks, this`disp, this`currentConns, this`conns, this`hist, r, status
      ensures Valid() && done == Unblocked(old(View()), acts) && Runs(old(View()), done, View())
      decreases |acts|
    {
      done := [];
      if acts != [] {
        var ok := CanAct(acts[0]);
        if ok {
          Act(acts[0]);
        }
        var rest := Perform(acts[1..]);
        done := if ok then [acts[0]] + rest else rest;
      }
    }

    // ---- A whole broadcast ---------------------------------------------------

    /** One round of the range: the ref and the send. */
    method ServeOne(to: nat)
      requires Valid() && disp.Got? && to in disp.todo
      modifies this`disp, this`conns, r
      ensures Valid() && disp == Got(old(disp.b), old(disp.todo) - {to}) && disp.b < n
      ensures to < |old(conns)| && conns == old(conns)[to := Push(old(conns[to]), disp.b)]
      ensures r[disp.b] == old(r[disp.b]) + 1
    {
      RefFor(to);
      SendToFits(View());
      SendTo();
    }

    /** The unref after the range, with its clear. */
    method FinishBroadcast()
      requires Valid() && disp.Got? && disp.todo == {}
      modifies this`disp, this`hist, r, status
      ensures Valid() && disp.Idle? && old(disp.b) < n
      ensures r[old(disp.b)] == old(r[disp.b]) - 1
      ensures r[old(disp.b)] == 0 ==> !status[old(disp.b)]
    {
      UnrefBase();
      if disp.BaseClear? {
        ClearBase();
      }
    }

    /** The range over currentConns. */
    method ServeAll(ghost before: seq<Conn>)
      requires Valid() && disp.Got? && disp.todo == currentConns && conns == before
      modifies this`disp, this`conns, r
      ensures Valid() && disp == Got(old(disp.b), {}) && disp.b < n && |conns| == |before|
      ensures r[disp.b] == old(r[disp.b]) + |currentConns|
      ensures Served(before, conns, currentConns, disp.b)
    {
      ghost var b := disp.b;
      while disp.todo != {}
        invariant Valid() && disp.Got? && disp.b == b < n && disp.todo <= currentConns && |conns| == |before|
        invariant r[b] == old(r[disp.b]) + |currentConns| - |disp.todo|
        invariant Served(before, conns, currentConns - disp.todo, b)
        decreases |disp.todo|
      {
        var to :| to in disp.todo;
        ServedStep(before, conns, currentConns, disp.todo, to, b);
        ServeOne(to);
      }
    }

    /** The body of `case b := <-s.newBlocks` when nobody else runs in between: every
        registered connection, and no other, gets the block at the end of its queue, and the
        block has one reference for each of them; with no connection it is back with the
        kernel. */
    method Broadcast()
      requires Valid() && disp.Idle? && newBlocks != []
      modifies this`disp, this`newBlocks, this`hist, this`conns, r, status
      ensures Valid() && disp.Idle? && newBlocks == old(newBlocks)[1..] && |conns| == |old(conns)|
      ensures Served(old(conns), conns, currentConns, old(newBlocks[0]))
      ensures old(newBlocks[0]) < n && r[old(newBlocks[0])] == |currentConns|
      ensures currentConns == {} ==> !status[old(newBlocks[0])]
    {
      QueuedCount(View());
      Dispatch();
      ServeAll(conns);
      FinishBroadcast();
    }
  }

  lemma {:induction false} TotalZero(cs: seq<Conn>, b: nat)
    requires forall i :: 0 <= i < |cs| ==> Refs(cs[i], b) == 0
    ensures TotalRefs(cs, b) == 0
  {
    if cs != [] {
      TotalZero(cs[..|cs| - 1], b);
    }
  }

  /** A block waiting for the dispatcher has one reference. */
  lemma QueuedCount(s: Socket)
    requires SocketInv(s) && s.disp.Idle? && s.queue != []
    ensures s.queue[0] < s.n && At(s.counts, s.queue[0]) == 1
  {
    var b := s.queue[0];
    assert BlockInv(s, b);
    assert b in multiset(s.queue);
    forall i | 0 <= i < |s.conns| ensures Refs(s.conns[i], b) == 0 {
      assert FreshAt(s, i, b);
    }
    TotalZero(s.conns, b);
  }
}
