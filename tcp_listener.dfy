/** The accepted-connection side of the TcpListener tunnel: the downstream
    payload handler (`downstream/payload.c`) and the socket callbacks and
    write-queue helpers of `common/helpers.c`.  A line state follows the
    backpressure rule of module `Backpressure`; its `signals` log holds what
    it sends to the next node upstream. */
module TcpListener {

  import opened Common
  import opened Backpressure

  /** `tcplistener_lstate_t`, with the write-complete callback of its io. */
  class ListenerLine {
    var writePaused: bool
    var writeCb: bool
    var pauseQueue: seq<Bytes>
    var dataQueue: seq<Bytes>
    /** Every buffer handed to `wioWrite`, in call order. */
    var written: seq<Bytes>
    /** Every signal sent to the next node upstream, in order. */
    var signals: seq<Signal>
    var timeoutResets: nat
    var established: bool
    /** `lineIsAlive` of the line the state belongs to. */
    var alive: bool

    function View(): State
      reads this
    {
      State(writePaused, writeCb, pauseQueue, dataQueue, written, signals, timeoutResets)
    }

    /** The line state `tcplistenerOnInboundConnected` sets up. */
    constructor ()
      ensures View() == Connected && !established && alive
    {
      writePaused := false;
      writeCb := false;
      pauseQueue := [];
      dataQueue := [];
      written := [];
      signals := [Init];
      timeoutResets := 0;
      established := false;
      alive := true;
    }

    /** `tcplistenerTunnelDownStreamPayload`, with `nwrite` the socket's
        answer to the write. */
    method DownStreamPayload(buf: Bytes, nwrite: int)
      modifies this
      ensures View() == OnPayload(old(View()), buf, nwrite)
      ensures established == old(established) && alive == old(alive)
    {
      if writePaused {
        signals := signals + [Pause];
        pauseQueue := pauseQueue + [buf];
      } else {
        var bytes := |buf|;
        written := written + [buf];
        timeoutResets := timeoutResets + 1;
        if nwrite >= 0 && nwrite < bytes {
          writePaused := true;
          writeCb := true;
          signals := signals + [Pause];
        }
      }
    }

    /** Pop the head of the data queue and hand it to `wioWrite`. */
    method WriteHead() returns (buf: Bytes)
      requires |dataQueue| > 0
      modifies this
      ensures buf == old(dataQueue)[0]
      ensures dataQueue == old(dataQueue)[1..] && written == old(written) + [buf]
      ensures Untouched() == old(Untouched())
    {
      buf := dataQueue[0];
      dataQueue := dataQueue[1..];
      written := written + [buf];
    }

    /** `resumeWriteQueue`: pop and write queued buffers in order, stopping
        after the first partial write; true exactly when every write was
        full.  `nwrite(i)` is the socket's answer to the i-th write. */
    method ResumeWriteQueue(nwrite: nat -> int) returns (drained: bool)
      modifies this
      ensures View() == Resumed(old(View()), nwrite)
      ensures drained == Drains(old(dataQueue), nwrite)
      ensures established == old(established) && alive == old(alive)
    {
      drained := WriteLoop(nwrite);
    }

    /** The fields the write loops leave alone. */
    ghost function Untouched(): (bool, bool, seq<Bytes>, seq<Signal>, nat, bool, bool)
      reads this
    {
      (writePaused, writeCb, pauseQueue, signals, timeoutResets, established, alive)
    }

    /** The loop of `resumeWriteQueue`, field by field. */
    method WriteLoop(nwrite: nat -> int) returns (drained: bool)
      modifies this
      ensures var q, n := old(dataQueue), Popped(old(dataQueue), nwrite);
              dataQueue == q[n..] && written == old(written) + q[..n]
      ensures drained == Drains(old(dataQueue), nwrite)
      ensures Untouched() == old(Untouched())
    {
      ghost var q := dataQueue;
      var i := 0;
      while |dataQueue| > 0
        invariant i <= |q| && dataQueue == q[i..]
        invariant written == old(written) + q[..i]
        invariant forall j :: 0 <= j < i ==> nwrite(j) >= |q[j]|
        invariant Untouched() == old(Untouched())
        decreases |dataQueue|
      {
        var buf := WriteHead();
        var bytes := |buf|;
        var n := nwrite(i);
        assert q[..i + 1] == q[..i] + [buf];
        assert dataQueue == q[i + 1..];
        if n < bytes {
          PoppedStops(q, nwrite, i);
          return false;
        }
        i := i + 1;
      }
      PoppedAll(q, nwrite);
      assert q[..i] == q;
      return true;
    }

    /** `tcplistenerFlushWriteQueue`: write queued buffers in order until the
        queue is empty or the socket is found closed; `closed(i)` is what
        `wioIsClosed` answers before the i-th write. */
    method FlushWriteQueue(closed: nat -> bool)
      modifies this
      ensures View() == Flushed(old(View()), closed)
      ensures established == old(established) && alive == old(alive)
    {
      FlushLoop(closed);
    }

    /** The loop of `tcplistenerFlushWriteQueue`, field by field. */
    method FlushLoop(closed: nat -> bool)
      modifies this
      ensures var q, k := old(dataQueue), FirstTrue(ClosedChecks(old(dataQueue), closed));
              dataQueue == q[k..] && written == old(written) + q[..k]
      ensures Untouched() == old(Untouched())
    {
      ghost var q := dataQueue;
      var i := 0;
      while |dataQueue| > 0
        invariant i <= |q| && dataQueue == q[i..]
        invariant written == old(written) + q[..i]
        invariant forall j :: 0 <= j < i ==> !closed(j)
        invariant Untouched() == old(Untouched())
        decreases |dataQueue|
      {
        if closed(i) {
          ClosedStops(q, closed, i);
          return;
        }
        var buf := WriteHead();
        assert q[..i + 1] == q[..i] + [buf];
        i := i + 1;
      }
      ClosedNone(q, closed);
      assert q[..i] == q;
    }
  }

  /** For each queued buffer, whether the socket is found closed before it
      is written. */
  function ClosedChecks(q: seq<Bytes>, closed: nat -> bool): (flags: seq<bool>)
    ensures |flags| == |q|
    ensures forall i :: 0 <= i < |q| ==> flags[i] == closed(i)
  {
    seq(|q|, i requires 0 <= i => closed(i))
  }

  /** The flush stops at the first buffer found closed. */
  lemma ClosedStops(q: seq<Bytes>, closed: nat -> bool, i: nat)
    requires i < |q| && closed(i)
    requires forall j :: 0 <= j < i ==> !closed(j)
    ensures FirstTrue(ClosedChecks(q, closed)) == i
  {
    assert ClosedChecks(q, closed)[i];
  }

  /** With the socket never found closed the flush writes everything. */
  lemma ClosedNone(q: seq<Bytes>, closed: nat -> bool)
    requires forall j :: 0 <= j < |q| ==> !closed(j)
    ensures FirstTrue(ClosedChecks(q, closed)) == |q|
  {
    assert forall j :: 0 <= j < |q| ==> !ClosedChecks(q, closed)[j];
  }

  /** The state after `tcplistenerFlushWriteQueue`. */
  function Flushed(s: State, closed: nat -> bool): State
  {
    var k := FirstTrue(ClosedChecks(s.dataQueue, closed));
    s.(dataQueue := s.dataQueue[k..], written := s.written + s.dataQueue[..k])
  }

  /** Flushing writes a prefix of the queue in FIFO order, all of it unless
      the socket is found closed, and touches nothing else. */
  lemma FlushKeepsOrder(s: State, closed: nat -> bool)
    ensures Flushed(s, closed).written + Flushed(s, closed).dataQueue == s.written + s.dataQueue
    ensures (forall i :: 0 <= i < |s.dataQueue| ==> !closed(i)) ==> Flushed(s, closed).dataQueue == []
    ensures Flushed(s, closed).signals == s.signals && Flushed(s, closed).writePaused == s.writePaused
  {
    var q := s.dataQueue;
    var k := FirstTrue(ClosedChecks(q, closed));
    var r := Flushed(s, closed);
    assert r.dataQueue == q[k..] && r.written == s.written + q[..k];
    assert q[..k] + q[k..] == q;
    SeqAssoc(s.written, q[..k], q[k..]);
  }

  /** The accepted socket (`wio_t`) as the listener's callbacks see it. */
  class Socket {
    /** `weventGetUserdata(io)`: the line state, or null once closed. */
    var userdata: ListenerLine?
    /** Whether reading has been started (`wioRead`). */
    var reading: bool
    /** Whether the read and close callbacks are installed. */
    var callbacksSet: bool
    /** Buffers handed back to the loop's buffer pool. */
    var recycled: seq<Bytes>

    constructor ()
      ensures userdata == null && !reading && !callbacksSet && recycled == []
    {
      userdata := null;
      reading := false;
      callbacksSet := false;
      recycled := [];
    }
  }

  /** `onRecv`: forward the buffer as payload to the next node; without a
      line state, give the buffer back to the pool and forward nothing. */
  method OnRecv(io: Socket, buf: Bytes)
    modifies io, io.userdata
    ensures io.userdata == old(io.userdata)
    ensures old(io.userdata) == null ==> io.recycled == old(io.recycled) + [buf]
    ensures old(io.userdata) != null ==>
              && io.recycled == old(io.recycled)
              && io.userdata.signals == old(io.userdata.signals) + [Payload(buf)]
              && io.userdata.View() == old(io.userdata.View()).(signals := io.userdata.signals)
  {
    var lstate := io.userdata;
    if lstate == null {
      io.recycled := io.recycled + [buf];
      return;
    }
    lstate.signals := lstate.signals + [Payload(buf)];
  }

  /** `onClose`: clear the socket's userdata first, then destroy the line
      and send Finish; a close that finds no line state does nothing. */
  method OnClose(io: Socket)
    modifies io, io.userdata
    ensures io.userdata == null
    ensures old(io.userdata) == null ==> unchanged(io)
    ensures old(io.userdata) != null ==>
              && !old(io.userdata).alive
              && old(io.userdata).signals == old(io.userdata.signals) + [Finish]
              && old(io.userdata).View() == old(io.userdata.View()).(signals := old(io.userdata).signals)
    ensures io.reading == old(io.reading) && io.recycled == old(io.recycled)
  {
    var lstate := io.userdata;
    if lstate != null {
      io.userdata := null;
      lstate.alive := false;
      lstate.signals := lstate.signals + [Finish];
    }
  }

  /** `tcplistenerOnInboundConnected`: a fresh, unpaused line state becomes
      the socket's userdata, the callbacks are installed and Init is sent;
      reading starts only if the line is still alive after Init
      (`aliveAfterInit`: whether the upstream chain kept it open). */
  method OnInboundConnected(io: Socket, aliveAfterInit: bool) returns (line: ListenerLine)
    modifies io
    ensures fresh(line) && io.userdata == line
    ensures line.View() == Connected && !line.established
    ensures line.alive == aliveAfterInit
    ensures io.callbacksSet
    ensures io.reading == (old(io.reading) || aliveAfterInit)
    ensures io.recycled == old(io.recycled)
  {
    line := new ListenerLine();
    io.userdata := line;
    io.callbacksSet := true;
    line.alive := aliveAfterInit;
    if !line.alive {
      return;
    }
    io.reading := true;
  }

  /** `tcplistenerOnWriteComplete`: without a line state nothing happens;
      otherwise, once the socket's pending write is complete, drain the data
      queue and resume only when it is drained. */
  method OnWriteComplete(io: Socket, complete: bool, nwrite: nat -> int)
    modifies io.userdata
    ensures io.userdata == old(io.userdata)
    ensures io.userdata == null ==> unchanged(io)
    ensures io.userdata != null ==>
              && io.userdata.View() == Backpressure.OnWriteComplete(old(io.userdata.View()), complete, nwrite)
              && io.userdata.alive == old(io.userdata.alive)
  {
    var lstate := io.userdata;
    if lstate == null {
      return;
    }
    if complete {
      if |lstate.dataQueue| > 0 {
        var drained := lstate.ResumeWriteQueue(nwrite);
        if !drained {
          return;
        }
      }
      lstate.writeCb := false;
      lstate.writePaused := false;
      lstate.signals := lstate.signals + [Resume];
    }
  }
}
