/**
 The batching loop of `conn.run` as it runs: it marks blocks in `outstanding` and appends
 their indexes to `out` for as long as the channel gives it another block.
 */
module Batch {
  import opened Wire
  import opened Framing
  import opened Connection
  import opened ConnectionProof

  /** What the inner select finds: another block, or nothing (the default). */
  datatype Polled = Another(index: nat) | Empty

  /** Block k of the batch: the first one, then what the polls gave. */
  function Block(first: nat, poll: nat -> Polled, k: nat): nat
    requires k > 0 ==> poll(k - 1).Another?
  {
    if k == 0 then first else poll(k - 1).index
  }

  function Messages(batch: seq<nat>): seq<Msg>
    requires forall k :: 0 <= k < |batch| ==> batch[k] < 0x1_0000_0000
  {
    seq(|batch|, k requires 0 <= k < |batch| => Index(batch[k]))
  }

  lemma {:induction false} EncodeAppend(ms: seq<Msg>, m: Msg)
    ensures EncodeAll(ms + [m]) == EncodeAll(ms) + Encode(m)
  {
    if ms == [] {
      assert (ms + [m])[1..] == [];
    } else {
      assert (ms + [m])[1..] == ms[1..] + [m];
      EncodeAppend(ms[1..], m);
    }
  }

  lemma MessagesAppend(batch: seq<nat>, b: nat)
    requires b < 0x1_0000_0000 && forall k :: 0 <= k < |batch| ==> batch[k] < 0x1_0000_0000
    ensures EncodeAll(Messages(batch + [b])) == EncodeAll(Messages(batch)) + Be32(b)
  {
    assert Messages(batch + [b]) == Messages(batch) + [Index(b)];
    EncodeAppend(Messages(batch), Index(b));
  }

  /** The batch consists of the first block and the polled ones, all different and not
      outstanding before; exactly they have been marked. */
  ghost predicate IsBatch(was: seq<bool>, now: seq<bool>, first: nat, poll: nat -> Polled, batch: seq<nat>) {
    && |now| == |was| && Distinct(batch)
    && (forall k: nat :: k < |batch| ==> BatchAt(was, first, poll, batch, k))
    && (forall x :: 0 <= x < |was| ==> now[x] == (was[x] || x in batch))
  }

  ghost predicate BatchAt(was: seq<bool>, first: nat, poll: nat -> Polled, batch: seq<nat>, k: nat)
    requires k < |batch|
  {
    && (k > 0 ==> poll(k - 1).Another?) && batch[k] == Block(first, poll, k)
    && batch[k] < |was| && !was[batch[k]]
  }

  lemma ExtendBatch(was: seq<bool>, now: seq<bool>, first: nat, poll: nat -> Polled, batch: seq<nat>, b: nat)
    requires IsBatch(was, now, first, poll, batch) && b < |now| && !now[b]
    requires (|batch| > 0 ==> poll(|batch| - 1).Another?) && b == Block(first, poll, |batch|)
    ensures IsBatch(was, now[b := true], first, poll, batch + [b]) && |batch| < |was|
  {
    var c := batch + [b];
    forall k: nat | k < |c| ensures BatchAt(was, first, poll, c, k) {
      if k < |batch| {
        assert BatchAt(was, first, poll, batch, k);
      }
    }
    forall k | 0 <= k < |c| ensures c[k] < |was| {
      assert BatchAt(was, first, poll, c, k);
    }
    Pigeonhole(c, |was|);
  }

  /** blockLoop, for a channel that may give a block at every poll, for ever: each round
      turns one entry of `outstanding` from zero to non-zero, so there are at most NumBlocks
      rounds.  It is fatal exactly when a block comes that is outstanding already. */
  method RunBatch(outstanding: array<bool>, first: nat, poll: nat -> Polled)
    returns (out: seq<Byte>, batch: seq<nat>, fatal: bool)
    requires outstanding.Length <= TOP_BIT && first < outstanding.Length
    requires forall k: nat :: poll(k).Another? ==> poll(k).index < outstanding.Length
    modifies outstanding
    ensures IsBatch(old(outstanding[..]), outstanding[..], first, poll, batch) && |batch| <= outstanding.Length
    ensures (forall k :: 0 <= k < |batch| ==> batch[k] < TOP_BIT) && out == EncodeAll(Messages(batch))
    ensures !fatal ==> batch != [] && poll(|batch| - 1).Empty?
    ensures fatal ==>
      && (|batch| > 0 ==> poll(|batch| - 1).Another?)
      && var b := Block(first, poll, |batch|); b < outstanding.Length && outstanding[b]
  {
    out, batch, fatal := [], [], false;
    var b := first;
    ghost var was := outstanding[..];
    while true
      invariant IsBatch(was, outstanding[..], first, poll, batch) && |batch| <= outstanding.Length
      invariant b < outstanding.Length && (|batch| > 0 ==> poll(|batch| - 1).Another?) && b == Block(first, poll, |batch|)
      invariant (forall k :: 0 <= k < |batch| ==> batch[k] < TOP_BIT) && out == EncodeAll(Messages(batch))
      decreases outstanding.Length - |batch|
    {
      if outstanding[b] {
        return out, batch, true;
      }
      ghost var now := outstanding[..];
      ExtendBatch(was, now, first, poll, batch, b);
      outstanding[b] := true;
      assert outstanding[..] == now[b := true];
      MessagesAppend(batch, b);
      out := out + Be32(b);
      batch := batch + [b];
      match poll(|batch| - 1) {
        case Another(index) => b := index;
        case Empty => return out, batch, false;
      }
    }
  }

  lemma {:induction false} IndexesOfMessages(batch: seq<nat>)
    requires forall k :: 0 <= k < |batch| ==> batch[k] < 0x1_0000_0000
    ensures Indexes(Messages(batch)) == batch
  {
    if batch != [] {
      assert Messages(batch)[1..] == Messages(batch[1..]);
      IndexesOfMessages(batch[1..]);
    }
  }

  /** Both clients get exactly the blocks of the batch, in order, out of what is written. */
  lemma BatchIsUnderstood(batch: seq<nat>, n: nat)
    requires n <= TOP_BIT && forall k :: 0 <= k < |batch| ==> batch[k] < n
    ensures GoBlocks(EncodeAll(Messages(batch)), n) == batch == CBlocks(EncodeAll(Messages(batch)), n)
  {
    ClientsReadTheSameBlocks(Messages(batch), n);
    IndexesOfMessages(batch);
  }

  // ---- The loop in the transition system ----------------------------------------

  /** Marking and polling, while the dispatcher may put more blocks into the channel. */
  datatype Event = Own(step: Step) | Arrive(b: nat)

  predicate Looping(c: Conn, es: seq<Event>, d: Conn, n: nat)
    decreases |es|
  {
    if es == [] then c == d
    else match es[0]
      case Own(step) =>
        (step.Mark? || step.PollNew?) && CanStep(c, step, n) && Looping(Next(c, step, n), es[1..], d, n)
      case Arrive(b) => b < n && Looping(Push(c, b), es[1..], d, n)
  }

  predicate InBatch(pc: Pc) { pc.Received? || pc.Poll? || pc.Write? }

  /** From c to d the batch has grown by blocks that are all different and were not
      outstanding, and exactly they have been marked; a block received at c is the first. */
  ghost predicate Built(c: Conn, d: Conn) {
    && c.out <= d.out
    && var more := d.out[|c.out|..];
       && Distinct(more) && (forall k :: 0 <= k < |more| ==> more[k] !in c.outstanding)
       && d.outstanding == c.outstanding + (set b | b in more)
       && (c.pc.Received? && more != [] ==> more[0] == c.pc.b)
       && (c.pc.Received? && more == [] ==> d.pc == c.pc)
  }

  lemma BuiltStep(c: Conn, step: Step, n: nat)
    requires CanStep(c, step, n) && (step.Mark? || step.PollNew?) && !Next(c, step, n).pc.Crashed?
    ensures var d := Next(c, step, n); InBatch(d.pc) && Built(c, d) && (step.PollNew? ==> d.out == c.out)
  {
    var d := Next(c, step, n);
    var more := d.out[|c.out|..];
    assert more == if step.Mark? then [c.pc.b] else [];
  }

  lemma BuiltTrans(c: Conn, d: Conn, e: Conn)
    requires Built(c, d) && Built(d, e) && !(c.pc.Received? && d.out == c.out && d.pc != c.pc)
    ensures Built(c, e)
  {
    var x, y, z := d.out[|c.out|..], e.out[|d.out|..], e.out[|c.out|..];
    assert z == x + y;
    forall j, k | 0 <= j < k < |z| ensures z[j] != z[k] {
      if j < |x| <= k {
        assert x[j] in d.outstanding && z[k] == y[k - |x|];
      }
    }
    forall k | 0 <= k < |z| ensures z[k] !in c.outstanding {
      if k >= |x| {
        assert y[k - |x|] !in d.outstanding;
      }
    }
  }

  lemma {:induction false} LoopBuilds(c: Conn, es: seq<Event>, d: Conn, n: nat)
    requires Looping(c, es, d, n) && InBatch(c.pc) && !d.pc.Crashed?
    ensures InBatch(d.pc) && Built(c, d)
    decreases |es|
  {
    if es != [] {
      match es[0]
      case Arrive(b) => LoopBuilds(Push(c, b), es[1..], d, n);
      case Own(step) =>
        var e := Next(c, step, n);
        if e.pc.Crashed? {
          StaysCrashed(e, es[1..], d, n);
        } else {
          BuiltStep(c, step, n);
          LoopBuilds(e, es[1..], d, n);
          BuiltTrans(c, e, d);
        }
    }
  }

  lemma {:induction false} StaysCrashed(c: Conn, es: seq<Event>, d: Conn, n: nat)
    requires Looping(c, es, d, n) && c.pc.Crashed?
    ensures d.pc == c.pc
    decreases |es|
  {
    if es != [] {
      StaysCrashed(Push(c, es[0].b), es[1..], d, n);
    }
  }

  /** The array that stands for a set of outstanding blocks. */
  function Flags(outstanding: set<nat>, n: nat): seq<bool> { seq(n, i => i in outstanding) }

  /** The polls that give the later blocks of a batch, and then nothing. */
  function PollsOf(batch: seq<nat>): nat -> Polled {
    (k: nat) => if k + 1 < |batch| then Another(batch[k + 1]) else Empty
  }

  /** What the transitions of a connection do between the receive of a block and the write
      is what RunBatch does. */
  lemma TransitionsBatch(c: Conn, es: seq<Event>, d: Conn, n: nat)
    requires Looping(c, es, d, n) && c.pc.Received? && c.out == [] && d.pc.Write?
    requires forall b :: b in d.outstanding ==> b < n
    ensures d.out != [] && PollsOf(d.out)(|d.out| - 1).Empty?
    ensures IsBatch(Flags(c.outstanding, n), Flags(d.outstanding, n), c.pc.b, PollsOf(d.out), d.out)
  {
    LoopBuilds(c, es, d, n);
    assert d.out[0..] == d.out;
    var was := Flags(c.outstanding, n);
    forall k: nat | k < |d.out| ensures BatchAt(was, c.pc.b, PollsOf(d.out), d.out, k) {
      assert d.out[k] in d.outstanding;
    }
  }

  /** A batch does not go on after an empty poll. */
  lemma NotLonger(was: seq<bool>, now: seq<bool>, first: nat, poll: nat -> Polled, batch: seq<nat>, k: nat)
    requires IsBatch(was, now, first, poll, batch) && k > 0 && poll(k - 1).Empty?
    ensures |batch| <= k
  {
    forall j: nat | j + 1 < |batch| ensures poll(j).Another? {
      assert BatchAt(was, first, poll, batch, j + 1);
    }
  }

  /** And there is only one such batch, so that the contract of RunBatch determines it. */
  lemma BatchIsUnique(was: seq<bool>, now: seq<bool>, now': seq<bool>, first: nat, poll: nat -> Polled,
                      batch: seq<nat>, batch': seq<nat>)
    requires IsBatch(was, now, first, poll, batch) && batch != [] && poll(|batch| - 1).Empty?
    requires IsBatch(was, now', first, poll, batch') && batch' != [] && poll(|batch'| - 1).Empty?
    ensures batch == batch' && now == now'
  {
    NotLonger(was, now, first, poll, batch, |batch'|);
    NotLonger(was, now', first, poll, batch', |batch|);
    forall k: nat | k < |batch| ensures batch[k] == batch'[k] {
      assert BatchAt(was, first, poll, batch, k) && BatchAt(was, first, poll, batch', k);
    }
  }
}
