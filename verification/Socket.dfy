/**
 One AF_PACKET socket of the daemon: the producer `getNewBlocks`, the dispatcher
 `socket.run`, the kernel, and any number of connections, as a labelled transition
 system.  `unref` is two steps, the decrement and the clear; `ready` is two reads;
 a dispatch is one reference and one non-blocking send for each connection.
 */
module Socket {
  import opened Connection

  /** A number of blocks. */
  type Size = n: nat | n > 0 witness 1

  datatype ProducerPc =
    | PollCount   // ready(): about to load the reference count
    | PollStatus  // ready(): the count was zero, about to load the status
    | Take        // ready() was true, about to ref
    | Hold        // about to send on s.newBlocks

  datatype Dispatcher =
    | Idle                                     // the select
    | Got(b: nat, todo: set<nat>)              // between two connections
    | Sending(b: nat, todo: set<nat>, to: nat) // has ref'd b for `to`
    | Dropping(b: nat, todo: set<nat>)         // default branch, about to unref
    | DropClear(b: nat, todo: set<nat>)
    | BaseClear(b: nat)                        // its own unref gave zero
    | Unregistering(who: nat)                  // received `who` on oldConns
    | DispatcherCrashed(fault: Fault)

  /** What has happened on a socket so far. */
  datatype History = History(
    sent: nat,        // blocks sent on s.newBlocks
    dispatched: nat,  // blocks received from s.newBlocks
    drops: nat,       // times the default branch of the broadcast was taken
    taken: seq<int>,  // for each block, how often the producer took it
    cleared: seq<int> // for each block, how often its status was cleared
  )

  datatype Socket = Socket(
    n: Size,            // NumBlocks
    counts: seq<int>,   // the field r of each block
    status: seq<bool>,  // block_status != 0
    producer: ProducerPc,
    idx: nat,           // blockIndex
    queue: seq<nat>,    // channel s.newBlocks, with capacity n
    disp: Dispatcher,
    current: set<nat>,  // currentConns
    conns: seq<Conn>,   // every connection ever added, in order
    hist: History)

  function Zeros(n: nat): seq<int> { seq(n, _ => 0) }

  /** The state that newSocket and run set up. */
  function Init(n: Size): Socket {
    Socket(n, Zeros(n), seq(n, _ => false), PollCount, 0, [], Idle, {}, [],
           History(0, 0, 0, Zeros(n), Zeros(n)))
  }

  datatype Action =
    | KernelFill(b: nat)   // the kernel hands block b to user space
    | LoadCount
    | LoadStatus
    | TakeRef
    | SendBlock
    | Accept               // case c := <-s.newConns
    | Dispatch             // case b := <-s.newBlocks
    | RefFor(to: nat)      // b.ref() for the next connection of the range
    | SendTo               // the non-blocking send
    | DropRef              // b.unref() of the default branch
    | ClearDropped
    | UnrefBase            // the b.unref() after the range
    | ClearBase
    | Rendezvous(who: nat) // case c := <-s.oldConns
    | CloseNew             // close(c.newBlocks); delete(s.currentConns, c)
    | ConnStep(i: nat, step: Step)

  function At(v: seq<int>, b: nat): int { if b < |v| then v[b] else 0 }

  function Add(v: seq<int>, b: nat, d: int): seq<int> {
    if b < |v| then v[b := v[b] + d] else v
  }

  function Put(v: seq<bool>, b: nat, x: bool): seq<bool> {
    if b < |v| then v[b := x] else v
  }

  predicate Enabled(s: Socket, a: Action) {
    match a
    case KernelFill(b) => b < |s.status| && !s.status[b]
    case LoadCount => s.producer.PollCount?
    case LoadStatus => s.producer.PollStatus?
    case TakeRef => s.producer.Take?
    case SendBlock => s.producer.Hold? && |s.queue| < s.n
    case Accept => s.disp.Idle?
    case Dispatch => s.disp.Idle? && s.queue != []
    case RefFor(to) => s.disp.Got? && to in s.disp.todo
    case SendTo => s.disp.Sending? && s.disp.to < |s.conns|
    case DropRef => s.disp.Dropping?
    case ClearDropped => s.disp.DropClear?
    case UnrefBase => s.disp.Got? && s.disp.todo == {}
    case ClearBase => s.disp.BaseClear?
    case Rendezvous(who) => s.disp.Idle? && who < |s.conns| && s.conns[who].pc.Offer?
    case CloseNew => s.disp.Unregistering? && s.disp.who < |s.conns|
    case ConnStep(i, step) =>
      && i < |s.conns| && CanStep(s.conns[i], step, s.n)
      && (step.Decrement? ==> step.refs == At(s.counts, s.conns[i].pc.u) - 1)
  }

  function Counted(s: Socket, b: nat, d: int): Socket {
    s.(counts := Add(s.counts, b, d))
  }

  /** `clear`: the status word goes back to the kernel. */
  function Cleared(s: Socket, b: nat): Socket {
    s.(status := Put(s.status, b, false), hist := s.hist.(cleared := Add(s.hist.cleared, b, 1)))
  }

  function TakeBlock(s: Socket): Socket {
    Counted(s, s.idx, 1).(producer := Hold, hist := s.hist.(taken := Add(s.hist.taken, s.idx, 1)))
  }

  function SendOn(s: Socket): Socket {
    s.(producer := PollCount, queue := s.queue + [s.idx], idx := (s.idx + 1) % s.n,
       hist := s.hist.(sent := s.hist.sent + 1))
  }

  function AcceptConn(s: Socket): Socket {
    s.(conns := s.conns + [NewConn(s.hist.dispatched)], current := s.current + {|s.conns|})
  }

  function DispatchBlock(s: Socket): Socket
    requires s.queue != []
  {
    s.(disp := Got(s.queue[0], s.current), queue := s.queue[1..],
       hist := s.hist.(dispatched := s.hist.dispatched + 1))
  }

  /** The `select` with a `default` inside the broadcast. */
  function TrySend(s: Socket, b: nat, todo: set<nat>, to: nat): Socket
    requires to < |s.conns|
  {
    if s.conns[to].newClosed then s.(disp := DispatcherCrashed(SendOnClosed))
    else if |s.conns[to].newQ| < s.n then
      s.(disp := Got(b, todo), conns := s.conns[to := Push(s.conns[to], b)])
    else s.(disp := Dropping(b, todo), hist := s.hist.(drops := s.hist.drops + 1))
  }

  /** The dispatcher's decrement: go to `zero` at zero and to `other` above it. */
  function DispatcherUnref(s: Socket, b: nat, zero: Dispatcher, other: Dispatcher): Socket {
    var refs := At(s.counts, b) - 1;
    Counted(s, b, -1).(disp := if refs == 0 then zero
                               else if refs < 0 then DispatcherCrashed(NegativeCount)
                               else other)
  }

  function CloseConn(s: Socket, who: nat): Socket
    requires who < |s.conns|
  {
    if s.conns[who].newClosed then s.(disp := DispatcherCrashed(CloseOfClosed))
    else s.(disp := Idle, current := s.current - {who},
            conns := s.conns[who := s.conns[who].(newClosed := true)])
  }

  function StepConn(s: Socket, i: nat, step: Step): Socket
    requires i < |s.conns| && CanStep(s.conns[i], step, s.n)
  {
    var t := s.(conns := s.conns[i := Next(s.conns[i], step, s.n)]);
    match step
    case Decrement(_) => Counted(t, s.conns[i].pc.u, -1)
    case ClearStatus => Cleared(t, s.conns[i].pc.u)
    case _ => t
  }

  /** The socket after an action. */
  function Apply(s: Socket, a: Action): Socket
    requires Enabled(s, a)
  {
    match a
    case KernelFill(b) => s.(status := Put(s.status, b, true))
    case LoadCount => s.(producer := if At(s.counts, s.idx) == 0 then PollStatus else PollCount)
    case LoadStatus => s.(producer := if s.idx < |s.status| && s.status[s.idx] then Take else PollCount)
    case TakeRef => TakeBlock(s)
    case SendBlock => SendOn(s)
    case Accept => AcceptConn(s)
    case Dispatch => DispatchBlock(s)
    case RefFor(to) => Counted(s, s.disp.b, 1).(disp := Sending(s.disp.b, s.disp.todo - {to}, to))
    case SendTo => TrySend(s, s.disp.b, s.disp.todo, s.disp.to)
    case DropRef => DispatcherUnref(s, s.disp.b, DropClear(s.disp.b, s.disp.todo), Got(s.disp.b, s.disp.todo))
    case ClearDropped => Cleared(s, s.disp.b).(disp := Got(s.disp.b, s.disp.todo))
    case UnrefBase => DispatcherUnref(s, s.disp.b, BaseClear(s.disp.b), Idle)
    case ClearBase => Cleared(s, s.disp.b).(disp := Idle)
    case Rendezvous(who) =>
      s.(disp := Unregistering(who), conns := s.conns[who := s.conns[who].(pc := DrainNew)])
    case CloseNew => CloseConn(s, s.disp.who)
    case ConnStep(i, step) => StepConn(s, i, step)
  }

  /** `acts` leads from s to t. */
  predicate Runs(s: Socket, acts: seq<Action>, t: Socket)
    decreases |acts|
  {
    if acts == [] then s == t
    else Enabled(s, acts[0]) && Runs(Apply(s, acts[0]), acts[1..], t)
  }

  ghost predicate Reachable(s: Socket) {
    exists n: Size, acts: seq<Action> :: Runs(Init(n), acts, s)
  }
}
