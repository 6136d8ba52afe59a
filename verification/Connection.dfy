/**
 One client connection of the daemon: the goroutines `conn.run` and
 `conn.handleReads` of go/testimonyd/internal/socket/socket.go, with the two
 channels they own.

 A step is one action that other goroutines can observe: a channel operation,
 an atomic change of a reference count, the store that clears a block's status,
 or a transfer on the client's socket.  Code between two such actions touches
 only local variables and is folded into the step before it.  Everything that
 would stop the Go program (a panic, log.Fatalf) is a `Crashed` state, so that
 its being unreachable is a theorem and not a precondition.
 */
module Connection {

  /** What stops the daemon. */
  datatype Fault =
    | NegativeCount       // panic in unref
    | AlreadyOutstanding  // log.Fatalf in conn.run
    | NilBlock            // a block received from a closed channel
    | IndexOutOfRange     // outstanding[i] with i >= NumBlocks
    | SendOnClosed
    | CloseOfClosed

  /** Where `run` goes on after an unref. */
  datatype Resume = ToSelect | ToDrain | ToRelease(next: nat)

  /** The program counter of `conn.run`. */
  datatype Pc =
    | Select                          // the main select
    | Received(b: nat)                // a block has been dequeued, not yet marked
    | Poll                            // the inner select of the batching loop
    | Write(w: nat)                   // w indexes of the batch are on the wire
    | Unref(u: nat, resume: Resume)   // about to decrement
    | Clear(u: nat, resume: Resume)   // the decrement gave zero, about to clear
    | Close                           // left the loop, about to close the socket
    | Offer                           // about to send itself on oldConns
    | DrainNew                        // range over newBlocks
    | DrainOld                        // range over oldBlocks
    | Release(i: nat)                 // range over outstanding
    | Done
    | Crashed(fault: Fault)

  /** The program counter of `conn.handleReads`. */
  datatype Reader = Reading | Passing(v: nat) | Exiting | Exited | ReaderCrashed(fault: Fault)

  /** Why `run` left its loop, and why `handleReads` returned. */
  datatype Ending = Running | WriteFailed | ReaderGone | NotOutstanding
  datatype ReadEnding = Open | ReadFailed | BadIndex

  predicate InLoop(pc: Pc) {
    pc.Select? || pc.Received? || pc.Poll? || pc.Write? || ((pc.Unref? || pc.Clear?) && pc.resume.ToSelect?)
  }

  predicate Draining(pc: Pc) {
    pc.DrainNew? || ((pc.Unref? || pc.Clear?) && pc.resume.ToDrain?)
  }

  /** In the last loop, or past it. */
  predicate Sweeping(pc: Pc) {
    pc.Release? || pc.Done? || ((pc.Unref? || pc.Clear?) && pc.resume.ToRelease?)
  }

  /** The client's socket has been closed. */
  predicate SockClosed(pc: Pc) {
    pc.Offer? || Draining(pc) || pc.DrainOld? || Sweeping(pc)
  }

  /** What has happened on a connection so far. */
  datatype Log = Log(
    joined: nat,             // dispatches before this connection was added
    got: seq<nat>,           // every index dequeued from newBlocks
    written: seq<nat>,       // every index put on the wire
    passed: seq<nat>,        // every valid index read from the client
    released: multiset<nat>, // every decrement made by this connection
    ending: Ending,
    readEnding: ReadEnding)

  datatype Conn = Conn(
    pc: Pc,
    reader: Reader,
    newQ: seq<nat>,          // channel newBlocks, by block index
    newClosed: bool,
    oldQ: seq<nat>,          // channel oldBlocks, index plus one
    oldClosed: bool,
    outstanding: set<nat>,   // the entries whose time is not zero
    out: seq<nat>,           // the batch being built or written
    log: Log)

  function NewConn(joined: nat): Conn {
    Conn(Select, Reading, [], false, [], false, {}, [],
         Log(joined, [], [], [], multiset{}, Running, Open))
  }

  datatype Step =
    | TakeNew              // case b := <-c.newBlocks
    | TakeOld              // case i := <-c.oldBlocks
    | Mark                 // check and set outstanding[b], append to out
    | PollNew              // the inner select, default included
    | Transfer             // one more index of the batch reaches the client
    | WriteDone
    | WriteFail
    | Decrement(refs: int) // atomic.AddInt32(&b.r, -1) == refs
    | ClearStatus          // block_status = 0
    | CloseSocket
    | Drain                // one round of the range over newBlocks
    | DrainReturn          // one round of the range over oldBlocks
    | Sweep                // one round of the range over outstanding
    | ReadIndex(num: nat)  // four bytes without the top bit
    | ReadTlv              // a TLV, ignored
    | ReadFail             // end of file or any read error
    | PassIndex            // c.oldBlocks <- i + 1
    | CloseOld             // the deferred close(c.oldBlocks)

  /** Whether a step can run now; a step that would block is not enabled.  Both
      channels have the capacity `n`, the number of blocks. */
  predicate CanStep(c: Conn, a: Step, n: nat) {
    match a
    case TakeNew => c.pc.Select? && (c.newQ != [] || c.newClosed)
    case TakeOld => c.pc.Select? && (c.oldQ != [] || c.oldClosed)
    case Mark => c.pc.Received?
    case PollNew => c.pc.Poll?
    case Transfer => c.pc.Write? && c.pc.w < |c.out|
    case WriteDone => c.pc.Write? && c.pc.w == |c.out|
    case WriteFail => c.pc.Write?
    case Decrement(_) => c.pc.Unref?
    case ClearStatus => c.pc.Clear?
    case CloseSocket => c.pc.Close?
    case Drain => c.pc.DrainNew? && (c.newQ != [] || c.newClosed)
    case DrainReturn => c.pc.DrainOld? && (c.oldQ != [] || c.oldClosed)
    case Sweep => c.pc.Release?
    case ReadIndex(_) => c.reader.Reading? && !SockClosed(c.pc)
    case ReadTlv => c.reader.Reading? && !SockClosed(c.pc)
    case ReadFail => c.reader.Reading?
    case PassIndex => c.reader.Passing? && (c.oldClosed || |c.oldQ| < n)
    case CloseOld => c.reader.Exiting?
  }

  function Resumed(r: Resume): Pc {
    match r
    case ToSelect => Select
    case ToDrain => DrainNew
    case ToRelease(i) => Release(i)
  }

  /** Dequeue a block; `next` says where the code goes with it. */
  function Dequeue(c: Conn, next: Pc): Conn
    requires c.newQ != []
  {
    c.(pc := next, newQ := c.newQ[1..], log := c.log.(got := c.log.got + [c.newQ[0]]))
  }

  /** A receive in the loop; a closed and empty channel gives a nil block. */
  function Receive(c: Conn): Conn {
    if c.newQ == [] then c.(pc := Crashed(NilBlock)) else Dequeue(c, Received(c.newQ[0]))
  }

  function LeaveLoop(c: Conn, why: Ending): Conn {
    c.(pc := Close, log := c.log.(ending := why))
  }

  /** The body of `case i := <-c.oldBlocks`, up to the unref.  A closed and empty
      channel gives zero. */
  function HandleReturn(c: Conn, n: nat): Conn {
    if c.oldQ == [] then LeaveLoop(c, ReaderGone)
    else
      var v, d := c.oldQ[0], c.(oldQ := c.oldQ[1..]);
      if v == 0 then LeaveLoop(d, ReaderGone)
      else if v - 1 >= n then d.(pc := Crashed(IndexOutOfRange))
      else if v - 1 !in c.outstanding then LeaveLoop(d, NotOutstanding)
      else d.(outstanding := c.outstanding - {v - 1}, pc := Unref(v - 1, ToSelect))
  }

  function MarkBlock(c: Conn, b: nat): Conn {
    if b in c.outstanding then c.(pc := Crashed(AlreadyOutstanding))
    else c.(pc := Poll, outstanding := c.outstanding + {b}, out := c.out + [b])
  }

  function TransferOne(c: Conn, w: nat): Conn
    requires w < |c.out|
  {
    c.(pc := Write(w + 1), log := c.log.(written := c.log.written + [c.out[w]]))
  }

  function AfterDecrement(c: Conn, u: nat, resume: Resume, refs: int): Conn {
    c.(pc := if refs == 0 then Clear(u, resume)
             else if refs < 0 then Crashed(NegativeCount)
             else Resumed(resume),
       log := c.log.(released := c.log.released + multiset{u}))
  }

  function SweepEntry(c: Conn, i: nat, n: nat): Conn {
    c.(pc := if i >= n then Done
             else if i in c.outstanding then Unref(i, ToRelease(i + 1))
             else Release(i + 1))
  }

  function HandleIndex(c: Conn, num: nat, n: nat): Conn {
    if num >= n then c.(reader := Exiting, log := c.log.(readEnding := BadIndex))
    else c.(reader := Passing(num + 1), log := c.log.(passed := c.log.passed + [num]))
  }

  function Pass(c: Conn, v: nat): Conn {
    if c.oldClosed then c.(reader := ReaderCrashed(SendOnClosed))
    else c.(reader := Reading, oldQ := c.oldQ + [v])
  }

  function CloseReturns(c: Conn): Conn {
    if c.oldClosed then c.(reader := ReaderCrashed(CloseOfClosed))
    else c.(reader := Exited, oldClosed := true)
  }

  /** The connection after a step. */
  function Next(c: Conn, a: Step, n: nat): Conn
    requires CanStep(c, a, n)
  {
    match a
    case TakeNew => Receive(c.(out := []))
    case TakeOld => HandleReturn(c, n)
    case Mark => MarkBlock(c, c.pc.b)
    case PollNew => if c.newQ != [] || c.newClosed then Receive(c) else c.(pc := Write(0))
    case Transfer => TransferOne(c, c.pc.w)
    case WriteDone => c.(pc := Select)
    case WriteFail => LeaveLoop(c, WriteFailed)
    case Decrement(refs) => AfterDecrement(c, c.pc.u, c.pc.resume, refs)
    case ClearStatus => c.(pc := Resumed(c.pc.resume))
    case CloseSocket => c.(pc := Offer)
    case Drain => if c.newQ == [] then c.(pc := DrainOld) else Dequeue(c, Unref(c.newQ[0], ToDrain))
    case DrainReturn => if c.oldQ == [] then c.(pc := Release(0)) else c.(oldQ := c.oldQ[1..])
    case Sweep => SweepEntry(c, c.pc.i, n)
    case ReadIndex(num) => HandleIndex(c, num, n)
    case ReadTlv => c
    case ReadFail => c.(reader := Exiting, log := c.log.(readEnding := ReadFailed))
    case PassIndex => Pass(c, c.reader.v)
    case CloseOld => CloseReturns(c)
  }

  /** The dispatcher's send on newBlocks. */
  function Push(c: Conn, b: nat): Conn { c.(newQ := c.newQ + [b]) }

  // ---- References -------------------------------------------------------

  /** The last loop has gone past entry b. */
  predicate Swept(pc: Pc, b: nat) {
    match pc
    case Release(i) => b < i
    case Unref(_, r) => r.ToRelease? && b < r.next
    case Clear(_, r) => r.ToRelease? && b < r.next
    case Done => true
    case _ => false
  }

  /** References to b that `run` holds outside its queue. */
  function InHand(c: Conn, b: nat): nat {
    (if (c.pc.Received? && c.pc.b == b) || (c.pc.Unref? && c.pc.u == b) then 1 else 0) +
    (if b in c.outstanding && !Swept(c.pc, b) then 1 else 0)
  }

  /** References to b that this connection has to give back. */
  function Refs(c: Conn, b: nat): nat {
    multiset(c.newQ)[b] + InHand(c, b)
  }

  /** Clears of b that this connection still has to perform. */
  function Pending(c: Conn, b: nat): nat {
    if c.pc.Clear? && c.pc.u == b then 1 else 0
  }

  // ---- What every step keeps --------------------------------------------

  ghost predicate Bounded(q: seq<nat>, lo: nat, hi: nat) {
    forall k :: 0 <= k < |q| ==> lo <= q[k] <= hi
  }

  /** Ranges, and the order of the phases. */
  ghost predicate WellFormed(c: Conn, n: nat) {
    && !c.pc.Crashed? && !c.reader.ReaderCrashed?
    && (forall k :: 0 <= k < |c.newQ| ==> c.newQ[k] < n)
    && (forall b :: b in c.outstanding ==> b < n)
    && |c.oldQ| <= n && Bounded(c.oldQ, 1, n)
    && (c.reader.Passing? ==> 1 <= c.reader.v <= n)
    && (c.pc.Received? ==> c.pc.b < n)
    && (c.pc.Unref? || c.pc.Clear? ==>
          c.pc.u < n && (c.pc.resume.ToRelease? ==> c.pc.resume.next == c.pc.u + 1))
    && (c.pc.Release? ==> c.pc.i <= n)
    && (c.pc.Write? ==> c.pc.w <= |c.out|)
    && (c.oldClosed <==> c.reader.Exited?)
    && (c.newClosed ==> Draining(c.pc) || c.pc.DrainOld? || Sweeping(c.pc))
    && (c.pc.DrainOld? || Sweeping(c.pc) ==> c.newClosed && c.newQ == [])
    && (Sweeping(c.pc) ==> c.oldClosed && c.oldQ == [])
    && (InLoop(c.pc) <==> c.log.ending.Running?)
    && (c.log.readEnding.Open? <==> c.reader.Reading? || c.reader.Passing?)
  }

  /** Dequeued then queued indexes are a window of the cyclic order. */
  ghost predicate Window(c: Conn, n: nat)
    requires n > 0
  {
    && (forall k: nat :: k < |c.log.got| ==> c.log.got[k] == (c.log.joined + k) % n)
    && (forall k: nat :: k < |c.newQ| ==> c.newQ[k] == (c.log.joined + |c.log.got| + k) % n)
  }

  /** Dequeued in the loop but not yet on the wire. */
  function Unwritten(c: Conn): seq<nat>
    requires c.pc.Write? ==> c.pc.w <= |c.out|
  {
    match c.pc
    case Received(b) => c.out + [b]
    case Poll => c.out
    case Write(w) => c.out[w..]
    case _ => []
  }

  ghost predicate Distinct(q: seq<nat>) {
    forall j, k :: 0 <= j < k < |q| ==> q[j] != q[k]
  }

  /** The wire carries the dequeued indexes in order, and a batch has no repeats. */
  ghost predicate Batching(c: Conn)
    requires c.pc.Write? ==> c.pc.w <= |c.out|
  {
    && c.log.written <= c.log.got
    && (InLoop(c.pc) ==> c.log.got == c.log.written + Unwritten(c))
    && (c.pc.Received? || c.pc.Poll? || c.pc.Write? ==>
          Distinct(c.out) && forall k :: 0 <= k < |c.out| ==> c.out[k] in c.outstanding)
  }

  /** Indexes read from the client that the loop has not handled yet. */
  function InFlight(c: Conn, b: nat): nat {
    multiset(c.oldQ)[b + 1] + (if c.reader.Passing? && c.reader.v == b + 1 then 1 else 0)
  }

  function Handled(c: Conn, b: nat): nat {
    c.log.released[b] + (if c.pc.Unref? && c.pc.u == b then 1 else 0)
  }

  /** The accounts of block b: at most one reference; each dequeued reference has
      been released once or is in hand; while in the loop, each index read from the
      client is in flight or was handled; and b is on the wire at most once more than
      it came back. */
  ghost predicate Accounts(c: Conn, b: nat) {
    && Refs(c, b) <= 1
    && multiset(c.log.got)[b] == c.log.released[b] + InHand(c, b)
    && (InLoop(c.pc) ==> multiset(c.log.passed)[b] == Handled(c, b) + InFlight(c, b))
    && multiset(c.log.written)[b] <= multiset(c.log.passed)[b] + 1
  }

  ghost predicate Inv(c: Conn, n: nat) {
    WellFormed(c, n) && Batching(c) && forall b: nat :: Accounts(c, b)
  }
}
