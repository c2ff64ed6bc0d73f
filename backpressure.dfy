/** The write-queue backpressure rule shared by the TCP tunnels: a line
    writes payload straight to its socket until a write is partial; it then
    marks itself `write_paused`, installs a write-complete callback and
    signals Pause toward the node feeding it.  While paused, payload is
    queued and every queued payload signals Pause again.  When the socket
    reports its pending write complete, the queue is drained in order; only
    once it is drained is the callback removed, the flag cleared and Resume
    signalled.

    The socket's answer to each write (`nwrite`) is an input: a partial write
    is `0 <= nwrite < bytes`, a failed one is negative. */
module Backpressure {

  import opened Common

  /** What a line sends toward the node feeding it. */
  datatype Signal = Init | Payload(buf: Bytes) | Pause | Resume | Finish

  /** The fields of a line state the rule reads and writes, plus the buffers
      handed to the socket (`written`), the signals sent (`signals`) and the
      number of read-timeout resets. */
  datatype State = State(
    writePaused: bool,
    writeCb: bool,
    pauseQueue: seq<Bytes>,
    dataQueue: seq<Bytes>,
    written: seq<Bytes>,
    signals: seq<Signal>,
    timeoutResets: nat)

  /** A line as it is set up on connection: not paused, queues empty, one
      Init sent. */
  const Connected := State(false, false, [], [], [], [Init], 0)

  /** The payload handler: queue and signal Pause while paused; otherwise
      write, reset the read timeout, and on a partial write pause, install
      the callback and signal Pause. */
  function OnPayload(s: State, buf: Bytes, nwrite: int): State
  {
    if s.writePaused then
      s.(pauseQueue := s.pauseQueue + [buf], signals := s.signals + [Pause])
    else if 0 <= nwrite < |buf| then
      s.(written := s.written + [buf], timeoutResets := s.timeoutResets + 1,
         writePaused := true, writeCb := true, signals := s.signals + [Pause])
    else
      s.(written := s.written + [buf], timeoutResets := s.timeoutResets + 1)
  }

  /** For each queued buffer, whether the socket would take it only
      partially (`nwrite < bytes`; a negative `nwrite` counts as well);
      `nwrite(i)` is the socket's answer to the i-th write. */
  function ShortWrites(q: seq<Bytes>, nwrite: nat -> int): (flags: seq<bool>)
    ensures |flags| == |q|
    ensures forall i :: 0 <= i < |q| ==> (flags[i] <==> nwrite(i) < |q[i]|)
  {
    seq(|q|, i requires 0 <= i < |q| => nwrite(i) < |q[i]|)
  }

  /** Whether `resumeWriteQueue` drains the whole queue (returns true). */
  predicate Drains(q: seq<Bytes>, nwrite: nat -> int)
  {
    FirstTrue(ShortWrites(q, nwrite)) == |q|
  }

  /** How many buffers `resumeWriteQueue` pops: all of them when every write
      is full, else up to and including the first partial one. */
  function Popped(q: seq<Bytes>, nwrite: nat -> int): (n: nat)
    ensures n <= |q|
    ensures Drains(q, nwrite) ==> n == |q|
    ensures !Drains(q, nwrite) ==> 0 < n && nwrite(n - 1) < |q[n - 1]|
    ensures forall i :: 0 <= i < n - 1 ==> nwrite(i) >= |q[i]|
  {
    var k := FirstTrue(ShortWrites(q, nwrite));
    if k < |q| then k + 1 else |q|
  }

  /** The write loop stops after the first partial write. */
  lemma PoppedStops(q: seq<Bytes>, nwrite: nat -> int, i: nat)
    requires i < |q| && nwrite(i) < |q[i]|
    requires forall j :: 0 <= j < i ==> nwrite(j) >= |q[j]|
    ensures Popped(q, nwrite) == i + 1 && !Drains(q, nwrite)
  {
    assert FirstTrue(ShortWrites(q, nwrite)) == i;
  }

  /** With every write full the loop pops the whole queue. */
  lemma PoppedAll(q: seq<Bytes>, nwrite: nat -> int)
    requires forall j :: 0 <= j < |q| ==> nwrite(j) >= |q[j]|
    ensures Popped(q, nwrite) == |q| && Drains(q, nwrite)
  {
    assert FirstTrue(ShortWrites(q, nwrite)) == |q|;
  }

  /** The state after `resumeWriteQueue`. */
  function Resumed(s: State, nwrite: nat -> int): State
  {
    var n := Popped(s.dataQueue, nwrite);
    s.(dataQueue := s.dataQueue[n..], written := s.written + s.dataQueue[..n])
  }

  /** The write-complete callback: nothing unless the write is complete;
      then drain the data queue and, unless a write is still partial,
      remove the callback, clear the flag and signal Resume. */
  function OnWriteComplete(s: State, complete: bool, nwrite: nat -> int): State
  {
    if !complete then s
    else if |s.dataQueue| > 0 && !Drains(s.dataQueue, nwrite) then Resumed(s, nwrite)
    else
      var d := Resumed(s, nwrite);
      d.(writeCb := false, writePaused := false, signals := d.signals + [Resume])
  }

  /** While paused, a payload is queued at the end, nothing is written, and
      exactly one Pause is signalled. */
  lemma PausedPayloadQueues(s: State, buf: Bytes, nwrite: int)
    requires s.writePaused
    ensures OnPayload(s, buf, nwrite).pauseQueue == s.pauseQueue + [buf]
    ensures OnPayload(s, buf, nwrite).written == s.written
    ensures OnPayload(s, buf, nwrite).signals == s.signals + [Pause]
    ensures OnPayload(s, buf, nwrite).writePaused
  {
  }

  /** When not paused, the payload is written and the read timeout reset;
      the line pauses, and signals Pause, exactly on a partial write. */
  lemma UnpausedPayloadWrites(s: State, buf: Bytes, nwrite: int)
    requires !s.writePaused
    ensures OnPayload(s, buf, nwrite).written == s.written + [buf]
    ensures OnPayload(s, buf, nwrite).timeoutResets == s.timeoutResets + 1
    ensures OnPayload(s, buf, nwrite).pauseQueue == s.pauseQueue
    ensures OnPayload(s, buf, nwrite).writePaused <==> 0 <= nwrite < |buf|
    ensures OnPayload(s, buf, nwrite).signals
              == if 0 <= nwrite < |buf| then s.signals + [Pause] else s.signals
  {
  }

  /** Draining keeps FIFO order: what was written followed by what is still
      queued is unchanged, and the written part is a prefix of the queue. */
  lemma ResumedKeepsOrder(s: State, nwrite: nat -> int)
    ensures Resumed(s, nwrite).written + Resumed(s, nwrite).dataQueue == s.written + s.dataQueue
    ensures Resumed(s, nwrite).dataQueue == s.dataQueue[Popped(s.dataQueue, nwrite)..]
  {
    var n := Popped(s.dataQueue, nwrite);
    assert s.dataQueue[..n] + s.dataQueue[n..] == s.dataQueue;
  }

  /** Resume is signalled exactly when the write is complete and the queue
      is drained with every write full; then the line is unpaused with an
      empty queue, and otherwise the flag is as it was. */
  lemma ResumeOnlyWhenDrained(s: State, complete: bool, nwrite: nat -> int)
    ensures var r := OnWriteComplete(s, complete, nwrite);
            && (complete && Drains(s.dataQueue, nwrite) ==>
                  r.signals == s.signals + [Resume] && !r.writePaused && !r.writeCb && r.dataQueue == [])
            && (!(complete && Drains(s.dataQueue, nwrite)) ==>
                  r.signals == s.signals && r.writePaused == s.writePaused && r.writeCb == s.writeCb)
  {
    var r := OnWriteComplete(s, complete, nwrite);
    if complete && Drains(s.dataQueue, nwrite) {
      assert Popped(s.dataQueue, nwrite) == |s.dataQueue|;
      assert r.dataQueue == s.dataQueue[|s.dataQueue|..];
    } else if complete {
      assert |s.dataQueue| > 0;
    }
  }

  /** One event a line sees: payload to write, or the socket's write event
      (which runs the callback only while it is installed). */
  datatype Event =
    | Write(buf: Bytes, nwrite: int)
    | WriteReady(complete: bool, answers: nat -> int)

  function Step(s: State, e: Event): State
  {
    match e
    case Write(buf, n) => OnPayload(s, buf, n)
    case WriteReady(complete, nw) => if s.writeCb then OnWriteComplete(s, complete, nw) else s
  }

  function Run(s: State, events: seq<Event>): State
    decreases |events|
  {
    if |events| == 0 then s else Run(Step(s, events[0]), events[1..])
  }

  /** The line is paused exactly while the callback is installed, and every
      Resume (plus the pending one while paused) answers an earlier Pause. */
  ghost predicate Balanced(s: State)
  {
    && (s.writePaused <==> s.writeCb)
    && multiset(s.signals)[Resume] + (if s.writePaused then 1 else 0) <= multiset(s.signals)[Pause]
  }

  lemma StepKeepsBalanced(s: State, e: Event)
    requires Balanced(s)
    ensures Balanced(Step(s, e))
  {
    match e
    case Write(buf, n) =>
    case WriteReady(complete, nw) =>
      if s.writeCb {
        ResumeOnlyWhenDrained(s, complete, nw);
      }
  }

  /** From connection on, whatever the socket answers: paused iff the
      callback is installed, and never more Resumes than Pauses. */
  lemma {:induction false} RunKeepsBalanced(s: State, events: seq<Event>)
    requires Balanced(s)
    ensures Balanced(Run(s, events))
    decreases |events|
  {
    if |events| > 0 {
      StepKeepsBalanced(s, events[0]);
      RunKeepsBalanced(Step(s, events[0]), events[1..]);
    }
  }

  /** A connected line starts balanced, so every run from it stays so. */
  lemma ConnectedRunsBalanced(events: seq<Event>)
    ensures Balanced(Run(Connected, events))
  {
    assert multiset(Connected.signals)[Pause] == 0;
    RunKeepsBalanced(Connected, events);
  }
}
