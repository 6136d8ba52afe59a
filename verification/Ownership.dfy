/**
 Who owns a block: the kernel while its status is zero, the daemon and its clients
 while its count is positive.  `unref` decrements and clears in two steps and `ready`
 looks at count and status, so the producer can take a block whose clear is still to
 come.  This module says exactly when ownership is kept, shows the run in which it is
 lost, and proves that it is never lost if nothing happens between a decrement to zero
 and its clear.
 */
module Ownership {
  import opened Connection
  import opened Socket
  import opened SocketProof
  import opened Fillings

  /** A block with the kernel is referenced by nobody. */
  predicate OwnedAt(s: Socket, b: nat) {
    b < |s.status| && !s.status[b] ==> At(s.counts, b) == 0
  }

  ghost predicate Owned(s: Socket) {
    forall b: nat :: b < s.n ==> OwnedAt(s, b)
  }

  /** Each state of a run has the property p. */
  ghost predicate EveryState(s: Socket, acts: seq<Action>, p: Socket -> bool)
    decreases |acts|
  {
    p(s) && (acts == [] || !Enabled(s, acts[0]) || EveryState(Apply(s, acts[0]), acts[1..], p))
  }

  /** Each step of a run is taken in a state in which p allows it. */
  ghost predicate EveryStep(s: Socket, acts: seq<Action>, p: (Socket, Action) -> bool)
    decreases |acts|
  {
    acts == [] || !Enabled(s, acts[0]) || (p(s, acts[0]) && EveryStep(Apply(s, acts[0]), acts[1..], p))
  }

  // ---- Exactly when ownership is kept ---------------------------------------

  /** A take of b finds its status set, and a clear of b finds its count at zero. */
  predicate OrderlyAt(s: Socket, a: Action, b: nat) {
    && (Does(s, a, b, Taking) ==> b < |s.status| && s.status[b])
    && (Clears(s, a, b) ==> At(s.counts, b) == 0)
  }

  ghost predicate Orderly(s: Socket, a: Action) {
    forall b: nat :: b < s.n ==> OrderlyAt(s, a, b)
  }

  lemma OwnedStepAt(s: Socket, a: Action, b: nat)
    requires SocketInv(s) && OwnedAt(s, b) && Enabled(s, a) && b < s.n
    ensures Apply(s, a).n == s.n && (OwnedAt(Apply(s, a), b) <==> OrderlyAt(s, a, b))
  {
    DeedEffect(s, a, b);
    CountEffect(s, a, b);
  }

  /** A step keeps ownership if and only if it is orderly. */
  lemma OwnedStep(s: Socket, a: Action)
    requires SocketInv(s) && Owned(s) && Enabled(s, a)
    ensures Owned(Apply(s, a)) <==> Orderly(s, a)
  {
    forall b: nat | b < s.n
      ensures Apply(s, a).n == s.n && (OwnedAt(Apply(s, a), b) <==> OrderlyAt(s, a, b))
    {
      assert OwnedAt(s, b);
      OwnedStepAt(s, a, b);
    }
  }

  lemma {:induction false} OwnedFrom(s: Socket, acts: seq<Action>)
    requires SocketInv(s) && Owned(s)
    ensures EveryState(s, acts, Owned) <==> EveryStep(s, acts, Orderly)
    decreases |acts|
  {
    if acts != [] && Enabled(s, acts[0]) {
      OwnedStep(s, acts[0]);
      ActionKeeps(s, acts[0]);
      if Orderly(s, acts[0]) {
        OwnedFrom(Apply(s, acts[0]), acts[1..]);
      }
    }
  }

  /** Ownership is kept in all states of a run if and only if every take found the status
      set and every clear found the count at zero. */
  lemma OwnedIffOrderly(n: Size, acts: seq<Action>)
    ensures EveryState(Init(n), acts, Owned) <==> EveryStep(Init(n), acts, Orderly)
  {
    InitInv(n);
    OwnedFrom(Init(n), acts);
  }

  // ---- Clean takes suffice ----------------------------------------------------

  /** The producer takes a block that is still marked ready and has no clear to come. */
  ghost predicate CleanTake(s: Socket, a: Action) {
    a.TakeRef? ==> s.idx < |s.status| && s.status[s.idx] && PendingClears(s, s.idx) == 0
  }

  /** The uses of a block that are not yet cleared are covered by the filling that its
      status shows. */
  predicate BackedAt(s: Socket, b: nat) {
    b < |s.status| && At(s.hist.taken, b) - At(s.hist.cleared, b) <= One(s.status[b])
  }

  ghost predicate Backed(s: Socket) {
    forall b: nat :: b < s.n ==> BackedAt(s, b)
  }

  lemma BackedStepAt(s: Socket, a: Action, b: nat)
    requires SocketInv(s) && BackedAt(s, b) && Enabled(s, a) && b < s.n
    ensures BackedAt(Apply(s, a), b) <==> (Does(s, a, b, Taking) ==> s.status[b] && PendingClears(s, b) == 0)
    ensures Clears(s, a, b) ==> s.status[b]
  {
    DeedEffect(s, a, b);
    assert BlockInv(s, b);
    if Clears(s, a, b) {
      ClearIsPending(s, a, b);
    }
  }

  lemma BackedStep(s: Socket, a: Action)
    requires SocketInv(s) && Backed(s) && Enabled(s, a)
    ensures Backed(Apply(s, a)) <==> CleanTake(s, a)
  {
    DeedEffect(s, a, 0);
    forall b: nat | b < s.n
      ensures BackedAt(Apply(s, a), b) <==> (Does(s, a, b, Taking) ==> s.status[b] && PendingClears(s, b) == 0)
    {
      assert BackedAt(s, b);
      BackedStepAt(s, a, b);
    }
    if Backed(Apply(s, a)) {
      assert BackedAt(Apply(s, a), s.idx);
    }
  }

  lemma BackedIsOwned(s: Socket)
    requires SocketInv(s) && Backed(s)
    ensures Owned(s)
  {
    forall b: nat | b < s.n ensures OwnedAt(s, b) {
      assert BackedAt(s, b) && BlockInv(s, b);
    }
  }

  /** From a backed state, clean takes keep it so, and every clear finds the status set. */
  lemma {:induction false} CleanFrom(s: Socket, acts: seq<Action>, t: Socket)
    requires SocketInv(s) && Backed(s) && Runs(s, acts, t) && EveryStep(s, acts, CleanTake)
    ensures SocketInv(t) && Backed(t) && t.n == s.n && EveryState(s, acts, Owned)
    ensures forall b: nat :: b < s.n ==> Times(s, acts, b, LateClearing) == 0
    decreases |acts|
  {
    BackedIsOwned(s);
    if acts != [] {
      var a := acts[0];
      BackedStep(s, a);
      ActionKeeps(s, a);
      DeedEffect(s, a, 0);
      CleanFrom(Apply(s, a), acts[1..], t);
      forall b: nat | b < s.n ensures Times(s, acts, b, LateClearing) == 0 {
        assert BackedAt(s, b);
        BackedStepAt(s, a, b);
      }
    }
  }

  lemma InitBacked(n: Size)
    ensures SocketInv(Init(n)) && Backed(Init(n))
  {
    InitInv(n);
  }

  /** With clean takes ownership is kept throughout a run, and the block is cleared once
      for each filling and taken at most once for each. */
  lemma CleanTakesSuffice(n: Size, acts: seq<Action>, s: Socket, b: nat)
    requires Runs(Init(n), acts, s) && EveryStep(Init(n), acts, CleanTake) && b < n
    ensures EveryState(Init(n), acts, Owned)
    ensures |s.status| == n
    ensures Times(Init(n), acts, b, Filling) == Times(Init(n), acts, b, Clearing) + One(s.status[b])
    ensures Times(Init(n), acts, b, Taking) <= Times(Init(n), acts, b, Filling)
  {
    InitBacked(n);
    CleanFrom(Init(n), acts, s);
    RunEffect(Init(n), acts, s, b);
    assert BackedAt(s, b);
  }

  /** And no weaker condition on a take will do: a take is clean if and only if the block
      is owned after it and stays so at every clear that can come next. */
  lemma TakeIsSafeIffClean(s: Socket)
    requires Reachable(s) && s.producer.Take?
    ensures var t := TakeBlock(s);
      CleanTake(s, TakeRef) <==>
      && OwnedAt(t, s.idx)
      && forall a: Action :: Enabled(t, a) && Clears(t, a, s.idx) ==> OwnedAt(Apply(t, a), s.idx)
  {
    var t := TakeBlock(s);
    ReachableInv(s);
    TakeKeeps(s);
    CountEffect(s, TakeRef, s.idx);
    assert t == Apply(s, TakeRef) && PendingClears(t, s.idx) == PendingClears(s, s.idx);
    if CleanTake(s, TakeRef) {
      forall a: Action | Enabled(t, a) ensures !Clears(t, a, s.idx) {
        if Clears(t, a, s.idx) {
          ClearIsPending(t, a, s.idx);
        }
      }
    } else if OwnedAt(t, s.idx) {
      var a := DirtyTakeLosesOwnership(s);
    }
  }

  // ---- The race ---------------------------------------------------------------

  /** If the producer takes a block with a clear to come, that clear gives the block to
      the kernel while it is in use. */
  lemma DirtyTakeLosesOwnership(s: Socket) returns (a: Action)
    requires Reachable(s) && s.producer.Take? && PendingClears(s, s.idx) > 0
    ensures var u := TakeBlock(s);
      && Enabled(u, a) && Clears(u, a, s.idx)
      && var t := Apply(u, a);
         s.idx < |t.status| && !t.status[s.idx] && At(t.counts, s.idx) == 1 && !OwnedAt(t, s.idx)
  {
    var u := TakeBlock(s);
    ReachableInv(s);
    TakeKeeps(s);
    CountEffect(s, TakeRef, s.idx);
    assert u == Apply(s, TakeRef) && PendingClears(u, s.idx) == PendingClears(s, s.idx);
    a := PendingCanClear(u, s.idx);
    DeedEffect(u, a, s.idx);
    CountEffect(u, a, s.idx);
  }

  lemma RunOne(s: Socket, a: Action, b: nat, d: Deed)
    requires Enabled(s, a)
    ensures Runs(s, [a], Apply(s, a)) && Times(s, [a], b, d) == One(Does(s, a, b, d))
  {
    assert Times(Apply(s, a), [], b, d) == 0;
  }

  lemma {:induction false} TimesTrans(s: Socket, xs: seq<Action>, t: Socket, ys: seq<Action>, b: nat, d: Deed)
    requires Runs(s, xs, t)
    ensures Times(s, xs + ys, b, d) == Times(s, xs, b, d) + Times(t, ys, b, d)
    decreases |xs|
  {
    if xs == [] {
      assert xs + ys == ys;
    } else {
      assert (xs + ys)[1..] == xs[1..] + ys;
      TimesTrans(Apply(s, xs[0]), xs[1..], t, ys, b, d);
    }
  }

  /** A state of the run below, which has one block and no client. */
  function RaceState(r: int, status: bool, p: ProducerPc, q: seq<nat>, d: Dispatcher,
                     sent: nat, dispatched: nat, taken: int, cleared: int): Socket {
    Socket(1, [r], [status], p, 0, q, d, {}, [], History(sent, dispatched, 0, [taken], [cleared]))
  }

  /** The k-th state of the run.  At 4 the block has been taken, at 8 its count is zero
      again and its clear is to come, at 10 it has been taken a second time, at 11 it has
      been cleared while in use, and at 15 it has been cleared once more. */
  function Station(k: nat): Socket {
    match k
    case 0 => Init(1)
    case 1 => RaceState(0, true, PollCount, [], Idle, 0, 0, 0, 0)
    case 2 => RaceState(0, true, PollStatus, [], Idle, 0, 0, 0, 0)
    case 3 => RaceState(0, true, Take, [], Idle, 0, 0, 0, 0)
    case 4 => RaceState(1, true, Hold, [], Idle, 0, 0, 1, 0)
    case 5 => RaceState(1, true, PollCount, [0], Idle, 1, 0, 1, 0)
    case 6 => RaceState(1, true, PollCount, [], Got(0, {}), 1, 1, 1, 0)
    case 7 => RaceState(0, true, PollCount, [], BaseClear(0), 1, 1, 1, 0)
    case 8 => RaceState(0, true, PollStatus, [], BaseClear(0), 1, 1, 1, 0)
    case 9 => RaceState(0, true, Take, [], BaseClear(0), 1, 1, 1, 0)
    case 10 => RaceState(1, true, Hold, [], BaseClear(0), 1, 1, 2, 0)
    case 11 => RaceState(1, false, Hold, [], Idle, 1, 1, 2, 1)
    case 12 => RaceState(1, false, PollCount, [0], Idle, 2, 1, 2, 1)
    case 13 => RaceState(1, false, PollCount, [], Got(0, {}), 2, 2, 2, 1)
    case 14 => RaceState(0, false, PollCount, [], BaseClear(0), 2, 2, 2, 1)
    case _ => RaceState(0, false, PollCount, [], Idle, 2, 2, 2, 2)
  }

  function RaceStep(k: nat): Action {
    match k
    case 0 => KernelFill(0)
    case 1 => LoadCount
    case 2 => LoadStatus
    case 3 => TakeRef
    case 4 => SendBlock
    case 5 => Dispatch
    case 6 => UnrefBase
    case 7 => LoadCount
    case 8 => LoadStatus
    case 9 => TakeRef
    case 10 => ClearBase
    case 11 => SendBlock
    case 12 => Dispatch
    case 13 => UnrefBase
    case _ => ClearBase
  }

  function RaceRun(k: nat): seq<Action> { if k == 0 then [] else RaceRun(k - 1) + [RaceStep(k - 1)] }

  predicate Leads(k: nat) {
    Enabled(Station(k), RaceStep(k)) && Apply(Station(k), RaceStep(k)) == Station(k + 1)
  }

  /** The producer takes and sends the block. */
  lemma RaceFill()
    ensures Leads(0) && Leads(1) && Leads(2) && Leads(3) && Leads(4)
  {
  }

  /** The dispatcher decrements its count to zero, and the producer finds count zero and
      the old status. */
  lemma RaceRelease()
    ensures Leads(5) && Leads(6) && Leads(7) && Leads(8)
  {
  }

  /** The producer takes the block again, and the late clear hands it to the kernel. */
  lemma RaceRetake()
    ensures Leads(9) && Leads(10) && Leads(11)
  {
  }

  /** After the second use it is cleared again. */
  lemma RaceReuse()
    ensures Leads(12) && Leads(13)
  {
  }

  lemma RaceClear()
    ensures Leads(14)
  {
  }

  lemma RaceLeads(k: nat)
    requires k < 15
    ensures Leads(k)
  {
    if k < 5 {
      RaceFill();
    } else if k < 9 {
      RaceRelease();
    } else if k < 12 {
      RaceRetake();
    } else if k < 14 {
      RaceReuse();
    } else {
      RaceClear();
    }
  }

  lemma {:induction false} RaceRuns(k: nat)
    requires k <= 15
    ensures Runs(Init(1), RaceRun(k), Station(k))
    ensures Times(Init(1), RaceRun(k), 0, Filling) == One(k > 0)
  {
    if k > 0 {
      RaceRuns(k - 1);
      RaceLeads(k - 1);
      RunOne(Station(k - 1), RaceStep(k - 1), 0, Filling);
      RunsTrans(Init(1), RaceRun(k - 1), Station(k - 1), [RaceStep(k - 1)], Station(k));
      TimesTrans(Init(1), RaceRun(k - 1), Station(k - 1), [RaceStep(k - 1)], 0, Filling);
    }
  }

  /** Exclusive ownership fails for the code as it is: after this run the kernel may
      write to a block that the producer has just taken. */
  lemma OwnershipCanBeLost() returns (s: Socket)
    ensures Runs(Init(1), RaceRun(11), s) && !OwnedAt(s, 0)
    ensures |s.status| == |s.counts| == 1 && !s.status[0] && s.counts[0] == 1
  {
    s := Station(11);
    RaceRuns(11);
  }

  /** And a block can be cleared twice for one filling. */
  lemma FillingClearedTwice() returns (s: Socket)
    ensures Runs(Init(1), RaceRun(15), s)
    ensures Times(Init(1), RaceRun(15), 0, Filling) == 1 && Times(Init(1), RaceRun(15), 0, Clearing) == 2
  {
    s := Station(15);
    RaceRuns(15);
    ClearsAreLogged(1, RaceRun(15), s, 0);
  }

  // ---- Ready ------------------------------------------------------------------

  predicate Ready(s: Socket, b: nat) {
    b < |s.status| && At(s.counts, b) == 0 && s.status[b]
  }

  /** A ready block is ready after a step if and only if the step is neither the
      producer's own ref of it nor a clear of it. */
  lemma ReadyStep(s: Socket, a: Action, b: nat)
    requires SocketInv(s) && Enabled(s, a) && b < s.n && Ready(s, b)
    ensures Ready(Apply(s, a), b) <==> !Does(s, a, b, Taking) && !Clears(s, a, b)
    ensures !Does(s, a, b, Taking) && PendingClears(s, b) == 0 ==> PendingClears(Apply(s, a), b) == 0
  {
    DeedEffect(s, a, b);
    CountEffect(s, a, b);
    ActionKeeps(s, a);
    assert BlockInv(s, b) && BlockInv(Apply(s, a), b);
    if Clears(s, a, b) {
      ClearIsPending(s, a, b);
    }
  }

  lemma {:induction false} ReadyFrom(s: Socket, acts: seq<Action>, t: Socket, b: nat)
    requires SocketInv(s) && b < s.n && Ready(s, b) && PendingClears(s, b) == 0
    requires Runs(s, acts, t) && Times(s, acts, b, Taking) == 0
    ensures Ready(t, b)
    decreases |acts|
  {
    if acts != [] {
      var a := acts[0];
      ReadyStep(s, a, b);
      if Clears(s, a, b) {
        ClearIsPending(s, a, b);
      }
      ActionKeeps(s, a);
      DeedEffect(s, a, b);
      ReadyFrom(Apply(s, a), acts[1..], t, b);
    }
  }

  /** The block is ready in every run up to the producer's own ref. */
  ghost predicate StaysReady(s: Socket, b: nat) {
    forall acts: seq<Action>, t: Socket :: Runs(s, acts, t) && Times(s, acts, b, Taking) == 0 ==> Ready(t, b)
  }

  lemma ClearEndsReady(s: Socket, a: Action, b: nat)
    requires SocketInv(s) && Enabled(s, a) && b < s.n && Ready(s, b) && Clears(s, a, b)
    ensures !StaysReady(s, b)
  {
    ReadyStep(s, a, b);
    RunOne(s, a, b, Taking);
  }

  lemma NoClearKeepsReady(s: Socket, b: nat)
    requires SocketInv(s) && b < s.n && Ready(s, b) && PendingClears(s, b) == 0
    ensures StaysReady(s, b)
  {
    forall acts: seq<Action>, t: Socket | Runs(s, acts, t) && Times(s, acts, b, Taking) == 0 ensures Ready(t, b) {
      ReadyFrom(s, acts, t, b);
    }
  }

  /** A ready block stays ready up to the producer's own ref, whatever else happens, if and
      only if no clear of it is to come. */
  lemma ReadyStays(s: Socket, b: nat)
    requires Reachable(s) && b < s.n && Ready(s, b)
    ensures StaysReady(s, b) <==> PendingClears(s, b) == 0
  {
    ReachableInv(s);
    if PendingClears(s, b) == 0 {
      NoClearKeepsReady(s, b);
    } else {
      var a := PendingCanClear(s, b);
      ClearEndsReady(s, a, b);
    }
  }

  // ---- Decrement and clear as one step -----------------------------------------

  /** Nothing comes between a decrement to zero and its clear: while a clear is to come,
      it is the only step. */
  ghost predicate Prompt(s: Socket, a: Action) {
    forall b: nat :: b < s.n && PendingClears(s, b) > 0 ==> Clears(s, a, b)
  }

  ghost predicate PromptInv(s: Socket) {
    && SocketInv(s) && Backed(s)
    && (s.producer.Take? ==> Ready(s, s.idx) && PendingClears(s, s.idx) == 0)
  }

  /** How the producer comes to take a block. */
  lemma ReachesTake(s: Socket, a: Action)
    requires Enabled(s, a) && Apply(s, a).producer.Take?
    ensures Apply(s, a).idx == s.idx && !a.TakeRef?
    ensures s.producer.Take? || (a.LoadStatus? && s.producer.PollStatus? && s.idx < |s.status| && s.status[s.idx])
  {
  }

  lemma PromptStep(s: Socket, a: Action)
    requires PromptInv(s) && Enabled(s, a) && Prompt(s, a)
    ensures PromptInv(Apply(s, a)) && CleanTake(s, a)
  {
    ActionKeeps(s, a);
    BackedStep(s, a);
    if Apply(s, a).producer.Take? {
      ReachesTake(s, a);
      assert BlockInv(s, s.idx);
      assert PendingClears(s, s.idx) == 0;
      ReadyStep(s, a, s.idx);
      if Clears(s, a, s.idx) {
        ClearIsPending(s, a, s.idx);
      }
    }
  }

  lemma {:induction false} PromptFrom(s: Socket, acts: seq<Action>)
    requires PromptInv(s) && EveryStep(s, acts, Prompt)
    ensures EveryStep(s, acts, CleanTake)
    decreases |acts|
  {
    if acts != [] && Enabled(s, acts[0]) {
      PromptStep(s, acts[0]);
      PromptFrom(Apply(s, acts[0]), acts[1..]);
    }
  }

  /** Exclusive kernel ownership, if a decrement to zero and its clear are one step: at the
      end of every run, hence in all its states, a block with the kernel has count zero and
      is in no queue and with no client; and each filling has been cleared once or shows in
      the status. */
  lemma ExclusiveKernelOwnership(n: Size, acts: seq<Action>, s: Socket, b: nat)
    requires Runs(Init(n), acts, s) && EveryStep(Init(n), acts, Prompt) && b < n
    ensures |s.status| == |s.counts| == n
    ensures !s.status[b] ==>
      && s.counts[b] == 0 && b !in s.queue && !Carries(s.disp, b) && !(s.producer.Hold? && s.idx == b)
      && forall i :: 0 <= i < |s.conns| ==>
           b !in s.conns[i].newQ && (b in s.conns[i].outstanding ==> Swept(s.conns[i].pc, b))
    ensures Times(Init(n), acts, b, Filling) == Times(Init(n), acts, b, Clearing) + One(s.status[b])
  {
    InitBacked(n);
    PromptFrom(Init(n), acts);
    CleanTakesSuffice(n, acts, s, b);
    CleanFrom(Init(n), acts, s);
    BackedIsOwned(s);
    assert OwnedAt(s, b) && BlockInv(s, b);
    if !s.status[b] {
      forall i | 0 <= i < |s.conns|
        ensures b !in s.conns[i].newQ && (b in s.conns[i].outstanding ==> Swept(s.conns[i].pc, b))
      {
        TotalAtLeast(s.conns, i, b);
        assert Refs(s.conns[i], b) == 0;
      }
    }
  }
}
