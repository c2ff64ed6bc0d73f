/** The control logic of the Linux TUN device (`ww/devices/tun/tun_linux.c`):
    the reader routine's round-robin hand-off of packets to workers, the
    classification of read and write results into exit, retry or proceed,
    the writer routine's drain of the write channel, the non-blocking
    `tundeviceWrite` against the bounded channel, the up/running state
    machine of bring-up and bring-down, and the handling of a posted
    packet on its worker.

    Threads are sequential steps here: a routine processes the results its
    system calls return, given as inputs, while `running` holds.  Shell
    commands are their exit status (an input); `open`/`ioctl` of the device
    and pool creation are not part of this model. */
module TunDevice {

  import opened Common

  const EINTR: int := 4
  const EAGAIN: int := 11
  const EWOULDBLOCK: int := 11
  const EINVAL: int := 22

  /** An error after which the routines try again. */
  predicate Transient(errno: int)
  {
    errno == EINVAL || errno == EAGAIN || errno == EWOULDBLOCK || errno == EINTR
  }

  /** What a `read()` or `write()` on the device answered. */
  datatype IoResult = IoResult(n: int, errno: int)

  /** What a routine does after a system call. */
  datatype Action = Exit | Retry | Proceed

  /** The common decision of both routines: end of file and critical errors
      end the routine, transient errors try again, a positive count goes on. */
  function Classify(r: IoResult): Action
  {
    if r.n == 0 then Exit
    else if r.n < 0 then (if Transient(r.errno) then Retry else Exit)
    else Proceed
  }

  lemma ClassifyRule(r: IoResult)
    ensures Classify(r) == Exit <==> r.n == 0 || (r.n < 0 && r.errno !in {4, 11, 22})
    ensures Classify(r) == Retry <==> r.n < 0 && r.errno in {4, 11, 22}
    ensures Classify(r) == Proceed <==> r.n > 0
  {
  }

  /** `distribute_tid++` with the wrap at the worker count. */
  function NextTid(tid: nat, workers: nat): nat
  {
    if tid + 1 >= workers then 0 else tid + 1
  }

  /** A packet handed to a worker: the worker id and the buffer length. */
  datatype Delivery = Delivery(tid: nat, length: nat)

  /** The reader routine's progress: the next worker id, the packets posted,
      the buffers taken from and given back to the reader pool, and
      whether it has exited. */
  datatype Reader = Reader(tid: nat, posted: seq<Delivery>, taken: nat, recycled: nat, exited: bool)

  const ReaderStart: Reader := Reader(0, [], 0, 0, false)

  /** One turn of `routineReadFromTun`'s loop. */
  function ReadStep(r: Reader, res: IoResult, workers: nat): Reader
  {
    var r1 := r.(taken := r.taken + 1);
    match Classify(res)
    case Exit => r1.(recycled := r1.recycled + 1, exited := true)
    case Retry => r1.(recycled := r1.recycled + 1)
    case Proceed => r1.(posted := r1.posted + [Delivery(r.tid, res.n)], tid := NextTid(r.tid, workers))
  }

  /** The reader routine over the results of its successive results. */
  function ReadLoop(r: Reader, results: seq<IoResult>, workers: nat): Reader
    decreases |results|
  {
    if |results| == 0 || r.exited then r
    else ReadLoop(ReadStep(r, results[0], workers), results[1..], workers)
  }

  /** Packets go to workers in turn: the first new one to the current
      worker, each next one to the worker after the previous (wrapping at
      the worker count), each with its read length; the worker id stays
      below the worker count and the next id follows the last packet. */
  lemma {:induction false} ReadLoopRoundRobin(r: Reader, results: seq<IoResult>, workers: nat)
    requires 0 < workers && r.tid < workers
    ensures var q := ReadLoop(r, results, workers);
            && q.tid < workers
            && |r.posted| <= |q.posted| && q.posted[..|r.posted|] == r.posted
            && (|q.posted| == |r.posted| ==> q.tid == r.tid)
            && (|q.posted| > |r.posted| ==>
                  q.posted[|r.posted|].tid == r.tid && q.tid == NextTid(q.posted[|q.posted| - 1].tid, workers))
            && (forall j :: |r.posted| < j < |q.posted| ==> q.posted[j].tid == NextTid(q.posted[j - 1].tid, workers))
            && (forall j :: |r.posted| <= j < |q.posted| ==> q.posted[j].tid < workers && q.posted[j].length > 0)
    decreases |results|
  {
    if |results| == 0 || r.exited {
    } else {
      var r1 := ReadStep(r, results[0], workers);
      ReadLoopRoundRobin(r1, results[1..], workers);
      var q := ReadLoop(r1, results[1..], workers);
      assert q == ReadLoop(r, results, workers);
      if Classify(results[0]) == Proceed {
        var n := |r.posted|;
        assert r1.posted == r.posted + [Delivery(r.tid, results[0].n)];
        assert q.posted[n] == q.posted[..n + 1][n] == r1.posted[n];
        assert q.posted[..n] == q.posted[..n + 1][..n];
      } else {
        assert r1.posted == r.posted && r1.tid == r.tid;
      }
    }
  }

  /** Every buffer the reader takes is either posted to a worker or given
      back to the pool; a routine that has not exited has used every read,
      and it exits exactly when some read says end of file or a critical
      error. */
  lemma {:induction false} ReadLoopConserves(r: Reader, results: seq<IoResult>, workers: nat)
    requires r.taken == |r.posted| + r.recycled
    ensures var q := ReadLoop(r, results, workers);
            && q.taken == |q.posted| + q.recycled
            && r.taken <= q.taken <= r.taken + |results|
            && (!q.exited ==> q.taken == r.taken + |results|)
            && (!r.exited ==> (q.exited <==> exists i :: 0 <= i < |results| && Classify(results[i]) == Exit))
    decreases |results|
  {
    if |results| == 0 || r.exited {
    } else {
      var r1 := ReadStep(r, results[0], workers);
      ReadLoopConserves(r1, results[1..], workers);
      var q := ReadLoop(r1, results[1..], workers);
      if Classify(results[0]) == Exit {
        assert q == r1;
      } else {
        assert !r1.exited;
        if q.exited {
          var i :| 0 <= i < |results[1..]| && Classify(results[1..][i]) == Exit;
          assert results[i + 1] == results[1..][i];
        }
        if exists i :: 0 <= i < |results| && Classify(results[i]) == Exit {
          var i :| 0 <= i < |results| && Classify(results[i]) == Exit;
          assert i > 0 && results[1..][i - 1] == results[i];
        }
      }
    }
  }

  /** For each queued buffer, whether its write ends the writer routine. */
  function WriteExits(q: seq<Bytes>, outcome: nat -> IoResult): (flags: seq<bool>)
    ensures |flags| == |q|
    ensures forall i :: 0 <= i < |q| ==> flags[i] == (Classify(outcome(i)) == Exit)
  {
    seq(|q|, i requires 0 <= i => Classify(outcome(i)) == Exit)
  }

  /** How many queued buffers the writer routine takes: up to and including
      the first whose write ends it, else all of them. */
  function WriteCount(q: seq<Bytes>, outcome: nat -> IoResult): (n: nat)
    ensures n <= |q|
    ensures forall i :: 0 <= i < n - 1 ==> Classify(outcome(i)) != Exit
    ensures n < |q| ==> n > 0 && Classify(outcome(n - 1)) == Exit
    ensures n == |q| && n > 0 && Classify(outcome(n - 1)) != Exit ==>
              forall i :: 0 <= i < |q| ==> Classify(outcome(i)) != Exit
  {
    var k := FirstTrue(WriteExits(q, outcome));
    if k < |q| then k + 1 else |q|
  }

  /** The writer stops after the first write that ends it. */
  lemma WriteStops(q: seq<Bytes>, outcome: nat -> IoResult, i: nat)
    requires i < |q| && Classify(outcome(i)) == Exit
    requires forall j :: 0 <= j < i ==> Classify(outcome(j)) != Exit
    ensures WriteCount(q, outcome) == i + 1
  {
    assert FirstTrue(WriteExits(q, outcome)) == i;
  }

  /** With no write ending it, the writer takes the whole queue. */
  lemma WriteAll(q: seq<Bytes>, outcome: nat -> IoResult)
    requires forall j :: 0 <= j < |q| ==> Classify(outcome(j)) != Exit
    ensures WriteCount(q, outcome) == |q|
  {
    assert FirstTrue(WriteExits(q, outcome)) == |q|;
  }

  /** The write channel: its queue and whether it was closed. */
  datatype Chan = NoChan | Open(queue: seq<Bytes>, closed: bool)

  /** `tun_device_t` as the control logic sees it.  `pending` are the
      packets posted to workers and not yet handled, `handled` the read
      callbacks made, `msgsOut` the messages taken from the message pool;
      `drained` the buffers bring-down gave to the reader pool and
      `writerPool` those the writer gave back after writing. */
  datatype Dev = Dev(
    up: bool, running: bool, chan: Chan, queueMax: nat, hasReadCallback: bool,
    readThread: bool, writeThread: bool,
    pending: seq<Delivery>, handled: seq<Delivery>, msgsOut: nat,
    readerTaken: nat, readerRecycled: nat, drained: seq<Bytes>, writerPool: seq<Bytes>)

  /** The state the control logic keeps: running exactly while up, a
      channel exactly while up, never closed and never over its bound
      between calls, and one message out per pending packet. */
  predicate Valid(d: Dev)
  {
    && d.running == d.up
    && (d.up <==> d.chan.Open?)
    && (d.chan.Open? ==> !d.chan.closed && |d.chan.queue| <= d.queueMax)
    && d.msgsOut == |d.pending|
  }

  /** `tundeviceBringUp`, with `cmdOk` the exit status of the link command. */
  function BroughtUp(d: Dev, cmdOk: bool): (Dev, bool)
  {
    if d.up then (d, false)
    else
      var d1 := d.(up := true, running := true, chan := Open([], false));
      if !cmdOk then (d1, false)
      else (d1.(readThread := d.hasReadCallback, writeThread := true), true)
  }

  /** `tundeviceBringDown`, with `cmdOk` the exit status of the link command. */
  function BroughtDown(d: Dev, cmdOk: bool): (Dev, bool)
  {
    if !d.up then (d, true)
    else
      var left := if d.chan.Open? then d.chan.queue else [];
      var d1 := d.(running := false, up := false, chan := NoChan, drained := d.drained + left);
      if !cmdOk then (d1, false)
      else (d1.(readThread := if d.hasReadCallback then false else d.readThread, writeThread := false), true)
  }

  /** Bring-up of an up device answers false and changes nothing; otherwise
      the device is up and running with an empty open channel, and the
      threads start only when the link command succeeds.  Bring-down of a
      down device answers true and changes nothing; otherwise the device is
      down, not running, without channel, and every buffer left in the
      channel went to the reader pool in order.  Both keep the state valid. */
  lemma UpDownRule(d: Dev, cmdOk: bool)
    requires Valid(d)
    ensures d.up ==> BroughtUp(d, cmdOk) == (d, false)
    ensures !d.up ==> var (u, ok) := BroughtUp(d, cmdOk);
              && u.up && u.running && u.chan == Open([], false) && ok == cmdOk
              && u.writeThread == (cmdOk || d.writeThread)
              && u.pending == d.pending && u.drained == d.drained
    ensures Valid(BroughtUp(d, cmdOk).0)
    ensures !d.up ==> BroughtDown(d, cmdOk) == (d, true)
    ensures d.up ==> var (u, ok) := BroughtDown(d, cmdOk);
              && !u.up && !u.running && u.chan == NoChan && ok == cmdOk
              && u.drained == d.drained + d.chan.queue
              && (cmdOk ==> !u.writeThread)
    ensures Valid(BroughtDown(d, cmdOk).0)
  {
  }

  /** Bringing a device up twice is bringing it up once; bringing it down
      after up leaves it down with nothing queued. */
  lemma UpIdempotent(d: Dev, cmdOk: bool, cmdOk2: bool)
    requires Valid(d)
    ensures var u := BroughtUp(d, cmdOk).0;
            BroughtUp(u, cmdOk2) == (u, false)
    ensures var u := BroughtUp(d, cmdOk).0;
            var w := BroughtDown(u, cmdOk2).0;
            !w.up && !w.running && w.chan == NoChan && Valid(w)
  {
    var u := BroughtUp(d, cmdOk).0;
    UpDownRule(d, cmdOk);
    UpDownRule(u, cmdOk2);
  }

  /** `tundeviceWrite`: the buffer, and whether it was queued. */
  function Sent(d: Dev, buf: Bytes): (Dev, bool)
  {
    if !d.running then (d, false)
    else match d.chan
      case NoChan => (d, false)
      case Open(q, closed) =>
        if closed || |q| >= d.queueMax then (d, false)
        else (d.(chan := Open(q + [buf], false)), true)
  }

  /** A write succeeds exactly when the device runs and its open channel
      has room; it then queues the buffer last, and otherwise changes
      nothing.  Validity is kept. */
  lemma SendRule(d: Dev, buf: Bytes)
    requires Valid(d)
    ensures Sent(d, buf).1 <==> d.running && |d.chan.queue| < d.queueMax
    ensures Sent(d, buf).1 ==> Sent(d, buf).0 == d.(chan := Open(d.chan.queue + [buf], false))
    ensures !Sent(d, buf).1 ==> Sent(d, buf).0 == d
    ensures Valid(Sent(d, buf).0)
  {
  }

  /** The writer routine's effect on the device: it writes the channel's
      buffers in order, giving each back to the writer pool, and stops after
      the first write that ends it. */
  function WriterRan(d: Dev, outcome: nat -> IoResult): (Dev, bool)
    requires d.chan.Open?
  {
    var q := d.chan.queue;
    var n := WriteCount(q, outcome);
    (d.(chan := d.chan.(queue := q[n..]), writerPool := d.writerPool + q[..n]),
     n > 0 && Classify(outcome(n - 1)) == Exit)
  }

  /** The writer hands the channel's buffers to the pool in FIFO order with
      none lost, takes all of them unless a write ends it, and exits
      exactly when some taken write ends it. */
  lemma WriterKeepsOrder(d: Dev, outcome: nat -> IoResult)
    requires d.chan.Open?
    ensures var (w, exited) := WriterRan(d, outcome);
            && w.writerPool + w.chan.queue == d.writerPool + d.chan.queue
            && ((forall i :: 0 <= i < |d.chan.queue| ==> Classify(outcome(i)) != Exit) ==> w.chan.queue == [] && !exited)
            && (exited ==> exists i :: 0 <= i < |d.chan.queue| && Classify(outcome(i)) == Exit)
            && (Valid(d) ==> Valid(w))
  {
    var q := d.chan.queue;
    var n := WriteCount(q, outcome);
    assert q[..n] + q[n..] == q;
  }

  /** The device's fields, updated in place. */
  class Device {
    var up: bool
    var running: bool
    var chan: Chan
    const queueMax: nat
    const hasReadCallback: bool
    var readThread: bool
    var writeThread: bool
    var pending: seq<Delivery>
    var handled: seq<Delivery>
    var msgsOut: nat
    var readerTaken: nat
    var readerRecycled: nat
    var drained: seq<Bytes>
    var writerPool: seq<Bytes>

    function View(): Dev
      reads this
    {
      Dev(up, running, chan, queueMax, hasReadCallback, readThread, writeThread,
          pending, handled, msgsOut, readerTaken, readerRecycled, drained, writerPool)
    }

    /** A created device: down, no channel, no threads. */
    constructor (queueMax: nat, hasReadCallback: bool)
      ensures View() == Dev(false, false, NoChan, queueMax, hasReadCallback, false, false, [], [], 0, 0, 0, [], [])
      ensures Valid(View())
    {
      this.queueMax := queueMax;
      this.hasReadCallback := hasReadCallback;
      up := false;
      running := false;
      chan := NoChan;
      readThread := false;
      writeThread := false;
      pending := [];
      handled := [];
      msgsOut := 0;
      readerTaken := 0;
      readerRecycled := 0;
      drained := [];
      writerPool := [];
    }

    /** `tundeviceBringUp`. */
    method BringUp(cmdOk: bool) returns (ok: bool)
      modifies this
      ensures (View(), ok) == BroughtUp(old(View()), cmdOk)
    {
      if up {
        return false;
      }
      up := true;
      running := true;
      chan := Open([], false);
      if !cmdOk {
        return false;
      }
      if hasReadCallback {
        readThread := true;
      } else {
        readThread := false;
      }
      writeThread := true;
      return true;
    }

    /** `tundeviceBringDown`: close the channel, hand every buffer left in it
        to the reader pool, drop it, then join the threads. */
    method BringDown(cmdOk: bool) returns (ok: bool)
      modifies this
      ensures (View(), ok) == BroughtDown(old(View()), cmdOk)
    {
      if !up {
        return true;
      }
      running := false;
      up := false;
      DrainChannel();
      if !cmdOk {
        return false;
      }
      if hasReadCallback {
        readThread := false;
      }
      writeThread := false;
      return true;
    }

    /** Close the channel, hand every buffer left in it to the reader
        pool, drop it. */
    method DrainChannel()
      modifies this
      ensures chan == NoChan && drained == old(drained) + (if old(chan).Open? then old(chan).queue else [])
      ensures Flags() == old(Flags()) && Traffic() == old(Traffic()) && writerPool == old(writerPool)
    {
      if chan.Open? {
        chan := chan.(closed := true);
        ghost var left := chan.queue;
        while |chan.queue| > 0
          invariant chan.Open? && drained + chan.queue == old(drained) + left
          invariant Flags() == old(Flags()) && Traffic() == old(Traffic()) && writerPool == old(writerPool)
          decreases |chan.queue|
        {
          drained := drained + [chan.queue[0]];
          chan := chan.(queue := chan.queue[1..]);
        }
      }
      chan := NoChan;
    }

    /** `tundeviceWrite`. */
    method Write(buf: Bytes) returns (ok: bool)
      modifies this
      ensures (View(), ok) == Sent(old(View()), buf)
    {
      if !running {
        return false;
      }
      match chan {
        case NoChan =>
          return false;
        case Open(q, closed) =>
          if closed || |q| >= queueMax {
            return false;
          }
          chan := Open(q + [buf], false);
          return true;
      }
    }

    /** `routineReadFromTun` while the device runs; `results` are the results
        of its successive `read()` calls and `workers` the worker count. */
    method ReadRoutine(results: seq<IoResult>, workers: nat)
      modifies this
      ensures var q := ReadLoop(ReaderStart, results, workers);
              && (old(running) ==>
                    && pending == old(pending) + q.posted && msgsOut == old(msgsOut) + |q.posted|
                    && readerTaken == old(readerTaken) + q.taken
                    && readerRecycled == old(readerRecycled) + q.recycled)
              && (!old(running) ==>
                    && pending == old(pending) && msgsOut == old(msgsOut)
                    && readerTaken == old(readerTaken) && readerRecycled == old(readerRecycled))
      ensures up == old(up) && running == old(running) && chan == old(chan)
      ensures handled == old(handled) && drained == old(drained) && writerPool == old(writerPool)
      ensures readThread == old(readThread) && writeThread == old(writeThread)
    {
      if !running {
        return;
      }
      var posted, taken, recycled := ReadAll(results, workers);
      pending := pending + posted;
      msgsOut := msgsOut + |posted|;
      readerTaken := readerTaken + taken;
      readerRecycled := readerRecycled + recycled;
    }

    /** The read loop itself: the packets posted, the buffers taken from
        the pool and those given back. */
    method ReadAll(results: seq<IoResult>, workers: nat) returns (posted: seq<Delivery>, taken: nat, recycled: nat)
      ensures var q := ReadLoop(ReaderStart, results, workers);
              posted == q.posted && taken == q.taken && recycled == q.recycled
    {
      var tid := 0;
      posted := [];
      taken := 0;
      recycled := 0;
      var i := 0;
      while i < |results|
        invariant 0 <= i <= |results|
        invariant ReadLoop(Reader(tid, posted, taken, recycled, false), results[i..], workers)
                  == ReadLoop(ReaderStart, results, workers)
      {
        ghost var r := Reader(tid, posted, taken, recycled, false);
        assert results[i..][1..] == results[i + 1..];
        var nread := results[i].n;
        taken := taken + 1;
        if nread == 0 {
          recycled := recycled + 1;
          assert ReadLoop(Reader(tid, posted, taken, recycled, true), results[i + 1..], workers)
                 == Reader(tid, posted, taken, recycled, true);
          break;
        }
        if nread < 0 {
          recycled := recycled + 1;
          if Transient(results[i].errno) {
            i := i + 1;
            continue;
          }
          assert ReadLoop(Reader(tid, posted, taken, recycled, true), results[i + 1..], workers)
                 == Reader(tid, posted, taken, recycled, true);
          break;
        }
        posted := posted + [Delivery(tid, nread)];
        tid := tid + 1;
        if tid >= workers {
          tid := 0;
        }
        i := i + 1;
      }
    }

    /** `routineWriteToTun` while the device runs, over the buffers in the
        channel; `outcome(i)` is the answer to the i-th `write()`.  True
        when the routine exited on a write. */
    method WriteRoutine(outcome: nat -> IoResult) returns (exited: bool)
      requires chan.Open?
      modifies this
      ensures (View(), exited) == WriterRan(old(View()), outcome)
    {
      exited := WriteLoop(outcome);
    }

    /** The loop of `routineWriteToTun`, field by field. */
    method WriteLoop(outcome: nat -> IoResult) returns (exited: bool)
      requires chan.Open?
      modifies this
      ensures var q, n := old(chan.queue), WriteCount(old(chan.queue), outcome);
              && chan == Open(q[n..], old(chan).closed) && writerPool == old(writerPool) + q[..n]
              && exited == (n > 0 && Classify(outcome(n - 1)) == Exit)
      ensures Flags() == old(Flags()) && Traffic() == old(Traffic()) && drained == old(drained)
    {
      ghost var q := chan.queue;
      var i := 0;
      while |chan.queue| > 0
        invariant i <= |q| && chan == Open(q[i..], old(chan).closed)
        invariant writerPool == old(writerPool) + q[..i]
        invariant forall j :: 0 <= j < i ==> Classify(outcome(j)) != Exit
        invariant Flags() == old(Flags()) && Traffic() == old(Traffic()) && drained == old(drained)
        decreases |chan.queue|
      {
        WriteFront(q, i, old(writerPool));
        var res := outcome(i);
        i := i + 1;
        if res.n == 0 || (res.n < 0 && !Transient(res.errno)) {
          WriteStops(q, outcome, i - 1);
          return true;
        }
      }
      WriteAll(q, outcome);
      assert q[..i] == q;
      return false;
    }

    /** The device and thread flags. */
    ghost function Flags(): (bool, bool, bool, bool)
      reads this
    {
      (up, running, readThread, writeThread)
    }

    /** The reader side's packets and counters. */
    ghost function Traffic(): (seq<Delivery>, seq<Delivery>, nat, nat, nat)
      reads this
    {
      (pending, handled, msgsOut, readerTaken, readerRecycled)
    }

    /** One turn of the writer: take the front buffer, write it, give it
        back to the pool. */
    method WriteFront(ghost q: seq<Bytes>, ghost i: nat, ghost pool0: seq<Bytes>)
      requires i < |q| && chan.Open? && chan.queue == q[i..] && writerPool == pool0 + q[..i]
      modifies this
      ensures chan == Open(q[i + 1..], old(chan).closed) && writerPool == pool0 + q[..i + 1]
      ensures Flags() == old(Flags()) && Traffic() == old(Traffic()) && drained == old(drained)
    {
      var buf := chan.queue[0];
      chan := chan.(queue := chan.queue[1..]);
      writerPool := writerPool + [buf];
      assert q[..i + 1] == q[..i] + [buf];
    }

    /** `localThreadEventReceived` for the k-th pending packet: the read
        callback sees it once and its message goes back to the pool. */
    method EventReceived(k: nat)
      requires k < |pending| && msgsOut > 0
      modifies this
      ensures handled == old(handled) + [old(pending)[k]]
      ensures pending == old(pending)[..k] + old(pending)[k + 1..]
      ensures msgsOut == old(msgsOut) - 1
      ensures multiset(pending) + multiset(handled) == multiset(old(pending)) + multiset(old(handled))
      ensures up == old(up) && running == old(running) && chan == old(chan)
      ensures readerTaken == old(readerTaken) && readerRecycled == old(readerRecycled)
      ensures drained == old(drained) && writerPool == old(writerPool)
    {
      var ev := pending[k];
      handled := handled + [ev];
      assert old(pending) == pending[..k] + [ev] + pending[k + 1..];
      pending := pending[..k] + pending[k + 1..];
      msgsOut := msgsOut - 1;
    }
  }
}
