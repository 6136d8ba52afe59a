/**
 How often a block is filled by the kernel, taken by the producer and cleared, computed
 from the actions of a run, and what these numbers have to do with each other.
 */
module Fillings {
  import opened Connection
  import opened Socket
  import opened SocketProof

  /** What can happen to a block. */
  datatype Deed =
    | Filling       // the kernel hands it to user space
    | Taking        // the producer's ref
    | Clearing      // the store of block_status = 0
    | LateClearing  // such a store when the status is zero already

  /** The action clears the status of block b. */
  predicate Clears(s: Socket, a: Action, b: nat) {
    || (a.ClearBase? && s.disp.BaseClear? && s.disp.b == b)
    || (a.ClearDropped? && s.disp.DropClear? && s.disp.b == b)
    || (a.ConnStep? && a.step.ClearStatus? && a.i < |s.conns| && s.conns[a.i].pc.Clear? && s.conns[a.i].pc.u == b)
  }

  predicate Does(s: Socket, a: Action, b: nat, d: Deed) {
    match d
    case Filling => a == KernelFill(b)
    case Taking => a.TakeRef? && s.idx == b
    case Clearing => Clears(s, a, b)
    case LateClearing => Clears(s, a, b) && b < |s.status| && !s.status[b]
  }

  /** How often `d` happens to block b during a run. */
  function Times(s: Socket, acts: seq<Action>, b: nat, d: Deed): nat
    decreases |acts|
  {
    if acts == [] || !Enabled(s, acts[0]) then 0
    else (if Does(s, acts[0], b, d) then 1 else 0) + Times(Apply(s, acts[0]), acts[1..], b, d)
  }

  function One(x: bool): nat { if x then 1 else 0 }

  // ---- One step -----------------------------------------------------------

  /** What an action does to the status and the logs of a block. */
  lemma DeedEffect(s: Socket, a: Action, b: nat)
    requires Shape(s) && ConnsInv(s) && Enabled(s, a) && b < s.n
    ensures var t := Apply(s, a);
      && t.n == s.n && |t.status| == s.n
      && t.status[b] == ((s.status[b] || Does(s, a, b, Filling)) && !Clears(s, a, b))
      && At(t.hist.taken, b) == At(s.hist.taken, b) + One(Does(s, a, b, Taking))
      && At(t.hist.cleared, b) == At(s.hist.cleared, b) + One(Clears(s, a, b))
  {
    if a.ConnStep? {
      ConnStepShape(s, a.i, a.step);
    }
  }

  /** The block whose count an action changes, and by how much. */
  function Change(s: Socket, a: Action): (nat, int)
    requires Enabled(s, a)
  {
    match a
    case TakeRef => (s.idx, 1)
    case RefFor(_) => (s.disp.b, 1)
    case DropRef => (s.disp.b, -1)
    case UnrefBase => (s.disp.b, -1)
    case ConnStep(i, step) => if step.Decrement? then (s.conns[i].pc.u, -1) else (0, 0)
    case _ => (0, 0)
  }

  lemma ChangeEffect(s: Socket, a: Action)
    requires Enabled(s, a)
    ensures var (x, d) := Change(s, a); Apply(s, a).counts == if d == 0 then s.counts else Add(s.counts, x, d)
  {
  }

  /** Only the producer's ref finds the count at zero. */
  lemma ChangedCount(s: Socket, a: Action)
    requires SocketInv(s) && Enabled(s, a)
    ensures var (x, d) := Change(s, a);
      d != 0 ==> x < s.n && (if a.TakeRef? then At(s.counts, x) == 0 else At(s.counts, x) >= 1)
  {
    match a
    case TakeRef => assert BlockInv(s, s.idx);
    case RefFor(_) => assert BlockInv(s, s.disp.b);
    case UnrefBase => assert BlockInv(s, s.disp.b);
    case ConnStep(i, step) => if step.Decrement? { UnrefPositive(s, i); }
    case _ =>
  }

  /** What an action does to the count of a block. */
  lemma CountEffect(s: Socket, a: Action, b: nat)
    requires SocketInv(s) && Enabled(s, a) && b < s.n
    ensures var r, r' := At(s.counts, b), At(Apply(s, a).counts, b);
      && (Clears(s, a, b) ==> r' == r)
      && (Does(s, a, b, Taking) ==> r == 0 && r' == 1)
      && (!Does(s, a, b, Taking) && r == 0 ==> r' == 0)
  {
    var (x, d) := Change(s, a);
    ChangeEffect(s, a);
    ChangedCount(s, a);
    if d != 0 {
      AddAt(s.counts, x, d, b);
    }
  }

  /** A clear runs only where one is pending, and a pending clear can run. */
  lemma ClearIsPending(s: Socket, a: Action, b: nat)
    requires SocketInv(s) && Enabled(s, a) && Clears(s, a, b)
    ensures PendingClears(s, b) > 0
  {
    if a.ConnStep? {
      TotalAtLeast(s.conns, a.i, b);
    }
  }

  lemma {:induction false} SomePending(cs: seq<Conn>, b: nat) returns (i: nat)
    requires TotalPending(cs, b) > 0
    ensures i < |cs| && Pending(cs[i], b) > 0
  {
    i := |cs| - 1;
    if Pending(cs[i], b) == 0 {
      i := SomePending(cs[..|cs| - 1], b);
    }
  }

  lemma PendingCanClear(s: Socket, b: nat) returns (a: Action)
    requires SocketInv(s) && PendingClears(s, b) > 0
    ensures Enabled(s, a) && Clears(s, a, b) && b < s.n
  {
    if s.disp.BaseClear? && s.disp.b == b {
      a := ClearBase;
    } else {
      var i := SomePending(s.conns, b);
      assert Inv(s.conns[i], s.n);
      a := ConnStep(i, ClearStatus);
    }
  }

  // ---- Whole runs -----------------------------------------------------------

  lemma {:induction false} RunEffect(s: Socket, acts: seq<Action>, t: Socket, b: nat)
    requires SocketInv(s) && Runs(s, acts, t) && b < s.n
    ensures t.n == s.n && |s.status| == |t.status| == s.n
    ensures At(t.hist.taken, b) == At(s.hist.taken, b) + Times(s, acts, b, Taking)
    ensures At(t.hist.cleared, b) == At(s.hist.cleared, b) + Times(s, acts, b, Clearing)
    ensures One(t.status[b]) + Times(s, acts, b, Clearing) ==
            One(s.status[b]) + Times(s, acts, b, Filling) + Times(s, acts, b, LateClearing)
    decreases |acts|
  {
    if acts != [] {
      DeedEffect(s, acts[0], b);
      ActionKeeps(s, acts[0]);
      RunEffect(Apply(s, acts[0]), acts[1..], t, b);
    }
  }

  lemma ClearsAreLogged(n: Size, acts: seq<Action>, s: Socket, b: nat)
    requires Runs(Init(n), acts, s) && b < n
    ensures Times(Init(n), acts, b, Clearing) == At(s.hist.cleared, b)
  {
    InitInv(n);
    RunEffect(Init(n), acts, s, b);
  }

  /** One clear for each production: over any run, each time the producer took a block it
      has been cleared, is about to be, or is still in use.  So no block leaks. */
  lemma OneClearPerProduction(n: Size, acts: seq<Action>, s: Socket, b: nat)
    requires Runs(Init(n), acts, s) && b < n
    ensures s.n == n && Times(Init(n), acts, b, Taking) ==
      Times(Init(n), acts, b, Clearing) + PendingClears(s, b) + One(At(s.counts, b) > 0)
  {
    InitInv(n);
    RunEffect(Init(n), acts, s, b);
    RunKeeps(Init(n), acts, s);
    assert BlockInv(s, b);
  }

  /** One clear for each filling: over any run, each filling of a block has been cleared or
      shows in its status, and no more clears happened, if and only if every clear found
      the status still set. */
  lemma OneClearPerFilling(n: Size, acts: seq<Action>, s: Socket, b: nat)
    requires Runs(Init(n), acts, s) && b < n
    ensures |s.status| == n
    ensures Times(Init(n), acts, b, Filling) <= Times(Init(n), acts, b, Clearing) + One(s.status[b])
    ensures Times(Init(n), acts, b, Filling) == Times(Init(n), acts, b, Clearing) + One(s.status[b])
       <==> Times(Init(n), acts, b, LateClearing) == 0
  {
    InitInv(n);
    RunEffect(Init(n), acts, s, b);
  }
}
