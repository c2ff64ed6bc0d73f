/** The older TCP connector adapter of `adapters/connector/tcp.c`.  Its
    per-connection state keeps a `write_paused` flag and two FIFO queues of
    contexts: `data_queue` (payload waiting for the socket) and
    `finished_queue` (contexts whose payload was written, waiting for reads
    on their source socket to be restarted).  Instead of Pause/Resume
    signals it stops reading on a context's source socket when it queues
    the context, and restarts it - once per run of equal consecutive source
    sockets - when the context is released.

    Calls into the event loop, the buffer pool and the next node are logged
    in a `Log`; the socket's answers to writes, name resolution and
    `socket()` are inputs. */
module ConnectorAdapter {

  import opened Common

  /** A socket (`hio_t *`), by identity. */
  type IoId = nat

  /** `context_t`: the source socket, the payload buffer (None once handed
      back to the pool) and the control flags. */
  datatype Ctx = Ctx(id: nat, srcIo: Option<IoId>, payload: Option<Bytes>, init: bool, fin: bool, est: bool)

  function PayloadOf(c: Ctx): Bytes
  {
    if c.payload.Some? then c.payload.value else []
  }

  /** Everything the adapter does outside its own state, each in call order:
      `hio_read`, `hio_read_stop`, `hio_write`, `reuseBuffer`,
      `DISCARD_CONTEXT`, `destroyContext`, contexts passed to the previous
      node, `hio_connect` and `hio_close`. */
  datatype Log = Log(
    readStarts: seq<IoId>,
    readStops: seq<IoId>,
    writes: seq<Bytes>,
    recycled: seq<Bytes>,
    discarded: seq<nat>,
    destroyed: seq<nat>,
    down: seq<Ctx>,
    connects: seq<IoId>,
    closes: seq<IoId>)

  /** `connector_con_state_t` (present or freed) with the upstream socket's
      userdata link, the log, and the id the next context created here gets. */
  datatype Con = Con(
    present: bool,
    io: Option<IoId>,
    ioBound: bool,
    writePaused: bool,
    writeCb: bool,
    established: bool,
    dataQueue: seq<Ctx>,
    finishedQueue: seq<Ctx>,
    log: Log,
    nextId: nat)

  /** Shape invariant: the socket is bound to the state exactly while the
      state is live, a live state has its socket, and every context waiting
      in `data_queue` still holds its payload. */
  ghost predicate Valid(s: Con)
  {
    && (s.ioBound <==> s.present)
    && (s.present ==> s.io.Some?)
    && (forall i :: 0 <= i < |s.dataQueue| ==> s.dataQueue[i].payload.Some?)
  }

  // ---------------------------------------------------------------------
  // Releasing contexts: the read-restart loop shared by `cleanup`,
  // `resume_write_queue` and `on_write_complete`.

  /** Whether releasing `c` restarts reading on its source socket, given the
      socket restarted last. */
  predicate Restarts1(c: Ctx, last: Option<IoId>)
  {
    c.srcIo.Some? && c.srcIo != last
  }

  function NextLast(c: Ctx, last: Option<IoId>): Option<IoId>
  {
    if Restarts1(c, last) then c.srcIo else last
  }

  /** Release one context: restart reading on its source if it differs from
      the last restarted one, discard its payload if asked, destroy it. */
  function ReleaseOne(log: Log, c: Ctx, last: Option<IoId>, discard: bool): Log
  {
    var l1 := if Restarts1(c, last) then log.(readStarts := log.readStarts + [c.srcIo.value]) else log;
    var l2 := if discard && c.payload.Some? then l1.(discarded := l1.discarded + [c.id]) else l1;
    l2.(destroyed := l2.destroyed + [c.id])
  }

  /** Release a queue front to back. */
  function Release(log: Log, ctxs: seq<Ctx>, last: Option<IoId>, discard: bool): Log
    decreases |ctxs|
  {
    if |ctxs| == 0 then log
    else Release(ReleaseOne(log, ctxs[0], last, discard), ctxs[1..], NextLast(ctxs[0], last), discard)
  }

  /** The sockets a release restarts reading on, in order. */
  function Restarts(ctxs: seq<Ctx>, last: Option<IoId>): seq<IoId>
    decreases |ctxs|
  {
    if |ctxs| == 0 then []
    else if Restarts1(ctxs[0], last) then [ctxs[0].srcIo.value] + Restarts(ctxs[1..], ctxs[0].srcIo)
    else Restarts(ctxs[1..], last)
  }

  /** `last_resumed_io` after a release. */
  function LastAfter(ctxs: seq<Ctx>, last: Option<IoId>): Option<IoId>
    decreases |ctxs|
  {
    if |ctxs| == 0 then last else LastAfter(ctxs[1..], NextLast(ctxs[0], last))
  }

  function Ids(ctxs: seq<Ctx>): (r: seq<nat>)
    ensures |r| == |ctxs|
    ensures forall i :: 0 <= i < |ctxs| ==> r[i] == ctxs[i].id
    decreases |ctxs|
  {
    if |ctxs| == 0 then [] else [ctxs[0].id] + Ids(ctxs[1..])
  }

  /** The ids of the contexts that still hold a payload, in order. */
  function PayloadIds(ctxs: seq<Ctx>): (r: seq<nat>)
    ensures |r| <= |ctxs|
    ensures forall x :: x in r <==> exists i :: 0 <= i < |ctxs| && ctxs[i].payload.Some? && ctxs[i].id == x
    decreases |ctxs|
  {
    if |ctxs| == 0 then []
    else
      var rest := PayloadIds(ctxs[1..]);
      assert forall i :: 1 <= i < |ctxs| ==> ctxs[1..][i - 1] == ctxs[i];
      if ctxs[0].payload.Some? then [ctxs[0].id] + rest else rest
  }

  /** The restarts a release logs. */
  lemma {:induction false} ReleaseReadStarts(log: Log, ctxs: seq<Ctx>, last: Option<IoId>, discard: bool)
    ensures Release(log, ctxs, last, discard).readStarts == log.readStarts + Restarts(ctxs, last)
    decreases |ctxs|
  {
    if |ctxs| == 0 {
      assert log.readStarts + [] == log.readStarts;
    } else {
      var c := ctxs[0];
      ReleaseReadStarts(ReleaseOne(log, c, last, discard), ctxs[1..], NextLast(c, last), discard);
      if Restarts1(c, last) {
        assert log.readStarts + [c.srcIo.value] + Restarts(ctxs[1..], c.srcIo)
            == log.readStarts + ([c.srcIo.value] + Restarts(ctxs[1..], c.srcIo));
      }
    }
  }

  /** The payload discards a release logs. */
  lemma {:induction false} ReleaseDiscarded(log: Log, ctxs: seq<Ctx>, last: Option<IoId>, discard: bool)
    ensures Release(log, ctxs, last, discard).discarded
              == log.discarded + (if discard then PayloadIds(ctxs) else [])
    decreases |ctxs|
  {
    if |ctxs| == 0 {
      assert log.discarded + [] == log.discarded;
    } else {
      var c := ctxs[0];
      ReleaseDiscarded(ReleaseOne(log, c, last, discard), ctxs[1..], NextLast(c, last), discard);
      if discard && c.payload.Some? {
        assert log.discarded + [c.id] + PayloadIds(ctxs[1..]) == log.discarded + ([c.id] + PayloadIds(ctxs[1..]));
      }
    }
  }

  /** The destructions a release logs. */
  lemma {:induction false} ReleaseDestroyed(log: Log, ctxs: seq<Ctx>, last: Option<IoId>, discard: bool)
    ensures Release(log, ctxs, last, discard).destroyed == log.destroyed + Ids(ctxs)
    decreases |ctxs|
  {
    if |ctxs| == 0 {
      assert log.destroyed + [] == log.destroyed;
    } else {
      var c := ctxs[0];
      var l := ReleaseOne(log, c, last, discard);
      ReleaseDestroyed(l, ctxs[1..], NextLast(c, last), discard);
      ReleaseOneDestroyed(log, c, last, discard);
      SeqAssoc(log.destroyed, [c.id], Ids(ctxs[1..]));
    }
  }

  lemma ReleaseOneDestroyed(log: Log, c: Ctx, last: Option<IoId>, discard: bool)
    ensures ReleaseOne(log, c, last, discard).destroyed == log.destroyed + [c.id]
  {
  }

  /** What a release leaves alone. */
  lemma {:induction false} ReleaseFrame(log: Log, ctxs: seq<Ctx>, last: Option<IoId>, discard: bool)
    ensures var r := Release(log, ctxs, last, discard);
            && r.readStops == log.readStops && r.writes == log.writes && r.recycled == log.recycled
            && r.down == log.down && r.connects == log.connects && r.closes == log.closes
    decreases |ctxs|
  {
    if |ctxs| > 0 {
      ReleaseFrame(ReleaseOne(log, ctxs[0], last, discard), ctxs[1..], NextLast(ctxs[0], last), discard);
    }
  }

  /** A release destroys every context once, in queue order, discards the
      payload of those still holding one (when asked), restarts reads as
      `Restarts` says and touches nothing else. */
  lemma ReleaseClosedForm(log: Log, ctxs: seq<Ctx>, last: Option<IoId>, discard: bool)
    ensures Release(log, ctxs, last, discard)
              == log.(readStarts := log.readStarts + Restarts(ctxs, last),
                      discarded := log.discarded + (if discard then PayloadIds(ctxs) else []),
                      destroyed := log.destroyed + Ids(ctxs))
  {
    ReleaseReadStarts(log, ctxs, last, discard);
    ReleaseDiscarded(log, ctxs, last, discard);
    ReleaseDestroyed(log, ctxs, last, discard);
    ReleaseFrame(log, ctxs, last, discard);
  }

  /** Reads are restarted once per run: no socket twice in a row, and never
      the one restarted just before the release began. */
  lemma {:induction false} RestartsNoRepeats(ctxs: seq<Ctx>, last: Option<IoId>)
    ensures var r := Restarts(ctxs, last);
            && (forall j :: 0 <= j < |r| - 1 ==> r[j] != r[j + 1])
            && (|r| > 0 ==> Some(r[0]) != last)
    decreases |ctxs|
  {
    if |ctxs| > 0 {
      RestartsNoRepeats(ctxs[1..], NextLast(ctxs[0], last));
      if Restarts1(ctxs[0], last) {
        var rest := Restarts(ctxs[1..], ctxs[0].srcIo);
        var r := [ctxs[0].srcIo.value] + rest;
        forall j | 0 <= j < |r| - 1
          ensures r[j] != r[j + 1]
        {
          if j > 0 {
            assert r[j] == rest[j - 1] && r[j + 1] == rest[j];
          }
        }
      }
    }
  }

  /** Every released context's source socket gets its reads restarted,
      unless it is the socket restarted just before the release. */
  lemma {:induction false} RestartsCover(ctxs: seq<Ctx>, last: Option<IoId>)
    ensures forall i :: 0 <= i < |ctxs| && ctxs[i].srcIo.Some? ==>
              ctxs[i].srcIo.value in Restarts(ctxs, last) || ctxs[i].srcIo == last
    decreases |ctxs|
  {
    if |ctxs| > 0 {
      var next := NextLast(ctxs[0], last);
      RestartsCover(ctxs[1..], next);
      forall i | 0 <= i < |ctxs| && ctxs[i].srcIo.Some?
        ensures ctxs[i].srcIo.value in Restarts(ctxs, last) || ctxs[i].srcIo == last
      {
        if i > 0 {
          assert ctxs[1..][i - 1] == ctxs[i];
        }
      }
    }
  }

  /** Only source sockets of released contexts get their reads restarted. */
  lemma {:induction false} RestartsSound(ctxs: seq<Ctx>, last: Option<IoId>)
    ensures forall x :: x in Restarts(ctxs, last) ==>
              exists i :: 0 <= i < |ctxs| && ctxs[i].srcIo == Some(x)
    decreases |ctxs|
  {
    if |ctxs| > 0 {
      RestartsSound(ctxs[1..], NextLast(ctxs[0], last));
      forall x | x in Restarts(ctxs, last)
        ensures exists i :: 0 <= i < |ctxs| && ctxs[i].srcIo == Some(x)
      {
        if x in Restarts(ctxs[1..], NextLast(ctxs[0], last)) {
          var i :| 0 <= i < |ctxs[1..]| && ctxs[1..][i].srcIo == Some(x);
          assert ctxs[i + 1].srcIo == Some(x);
        } else {
          assert ctxs[0].srcIo == Some(x);
        }
      }
    }
  }

  /** Releasing two queues one after the other with a shared
      `last_resumed_io` restarts reads as releasing their concatenation. */
  lemma {:induction false} RestartsAppend(a: seq<Ctx>, b: seq<Ctx>, last: Option<IoId>)
    ensures Restarts(a + b, last) == Restarts(a, last) + Restarts(b, LastAfter(a, last))
    decreases |a|
  {
    if |a| == 0 {
      assert a + b == b;
    } else {
      assert (a + b)[1..] == a[1..] + b;
      RestartsAppend(a[1..], b, NextLast(a[0], last));
    }
  }

  // ---------------------------------------------------------------------
  // `cleanup`

  /** `cleanup`: unbind the socket, release `data_queue` (discarding
      payloads) and then `finished_queue` with a shared
      `last_resumed_io`, and free the state. */
  function CleanedUp(s: Con): Con
  {
    var l1 := Release(s.log, s.dataQueue, None, true);
    var l2 := Release(l1, s.finishedQueue, LastAfter(s.dataQueue, None), false);
    s.(present := false, ioBound := if s.io.Some? then false else s.ioBound,
       dataQueue := [], finishedQueue := [], log := l2)
  }

  /** Cleanup discards every queued payload and destroys every queued
      context exactly once, in queue order, restarting reads once per run of
      equal source sockets over both queues; both queues end empty. */
  lemma CleanupReleasesAll(s: Con)
    requires Valid(s)
    ensures var r := CleanedUp(s);
            && r.dataQueue == [] && r.finishedQueue == [] && !r.present && !r.ioBound
            && r.log == s.log.(readStarts := s.log.readStarts + Restarts(s.dataQueue + s.finishedQueue, None),
                               discarded := s.log.discarded + Ids(s.dataQueue),
                               destroyed := s.log.destroyed + Ids(s.dataQueue) + Ids(s.finishedQueue))
            && Valid(r)
  {
    var dq, fq := s.dataQueue, s.finishedQueue;
    var mid := LastAfter(dq, None);
    var l1 := Release(s.log, dq, None, true);
    var l2 := Release(l1, fq, mid, false);
    assert CleanedUp(s).log == l2;
    ReleaseReadStarts(s.log, dq, None, true);
    ReleaseReadStarts(l1, fq, mid, false);
    RestartsAppend(dq, fq, None);
    assert l2.readStarts == s.log.readStarts + Restarts(dq + fq, None);
    ReleaseDiscarded(s.log, dq, None, true);
    ReleaseDiscarded(l1, fq, mid, false);
    AllPayloadIds(dq);
    assert l2.discarded == s.log.discarded + Ids(dq);
    ReleaseDestroyed(s.log, dq, None, true);
    ReleaseDestroyed(l1, fq, mid, false);
    ReleaseFrame(s.log, dq, None, true);
    ReleaseFrame(l1, fq, mid, false);
  }

  /** With every context holding a payload, the payload ids are all ids. */
  lemma {:induction false} AllPayloadIds(ctxs: seq<Ctx>)
    requires forall i :: 0 <= i < |ctxs| ==> ctxs[i].payload.Some?
    ensures PayloadIds(ctxs) == Ids(ctxs)
    decreases |ctxs|
  {
    if |ctxs| > 0 {
      AllPayloadIds(ctxs[1..]);
    }
  }

  // ---------------------------------------------------------------------
  // `resume_write_queue`

  /** For each queued context, whether its write is partial
      (`0 <= nwrite < bytes`); `nwrite(i)` answers the i-th write. */
  function Partial(q: seq<Ctx>, nwrite: nat -> int): (flags: seq<bool>)
    ensures |flags| == |q|
    ensures forall i :: 0 <= i < |q| ==> (flags[i] <==> 0 <= nwrite(i) < |PayloadOf(q[i])|)
  {
    seq(|q|, i requires 0 <= i < |q| => 0 <= nwrite(i) < |PayloadOf(q[i])|)
  }

  predicate Drained(q: seq<Ctx>, nwrite: nat -> int)
  {
    FirstTrue(Partial(q, nwrite)) == |q|
  }

  /** How many contexts `resume_write_queue` pops. */
  function Sent(q: seq<Ctx>, nwrite: nat -> int): (n: nat)
    ensures n <= |q|
    ensures Drained(q, nwrite) <==> n == |q| && (n == 0 || !(0 <= nwrite(n - 1) < |PayloadOf(q[n - 1])|))
    ensures forall i :: 0 <= i < n - 1 ==> !(0 <= nwrite(i) < |PayloadOf(q[i])|)
  {
    var k := FirstTrue(Partial(q, nwrite));
    if k < |q| then k + 1 else |q|
  }

  /** The contexts with their payload handed back. */
  function Emptied(q: seq<Ctx>): (r: seq<Ctx>)
    ensures |r| == |q|
    ensures forall i :: 0 <= i < |q| ==> r[i] == q[i].(payload := None)
  {
    seq(|q|, i requires 0 <= i < |q| => q[i].(payload := None))
  }

  function Payloads(q: seq<Ctx>): (r: seq<Bytes>)
    ensures |r| == |q|
    ensures forall i :: 0 <= i < |q| ==> r[i] == PayloadOf(q[i])
  {
    seq(|q|, i requires 0 <= i < |q| => PayloadOf(q[i]))
  }

  /** The write loop stops after the first partial write. */
  lemma SentStops(q: seq<Ctx>, nwrite: nat -> int, i: nat)
    requires i < |q| && 0 <= nwrite(i) < |PayloadOf(q[i])|
    requires forall j :: 0 <= j < i ==> !(0 <= nwrite(j) < |PayloadOf(q[j])|)
    ensures Sent(q, nwrite) == i + 1 && !Drained(q, nwrite)
  {
    assert FirstTrue(Partial(q, nwrite)) == i;
  }

  /** With no partial write the loop pops the whole queue. */
  lemma SentAll(q: seq<Ctx>, nwrite: nat -> int)
    requires forall j :: 0 <= j < |q| ==> !(0 <= nwrite(j) < |PayloadOf(q[j])|)
    ensures Sent(q, nwrite) == |q| && Drained(q, nwrite)
  {
    assert FirstTrue(Partial(q, nwrite)) == |q|;
  }

  /** The log after writing the payloads of `cs` and handing each buffer
      back to the pool. */
  function Written(l: Log, cs: seq<Ctx>): Log
  {
    l.(writes := l.writes + Payloads(cs), recycled := l.recycled + Payloads(cs))
  }

  /** Writing one more context extends both logs by its payload. */
  lemma WrittenStep(l: Log, q: seq<Ctx>, i: nat)
    requires i < |q|
    ensures Written(l, q[..i + 1]) == Written(l, q[..i]).(writes := Written(l, q[..i]).writes + [PayloadOf(q[i])],
                                                          recycled := Written(l, q[..i]).recycled + [PayloadOf(q[i])])
  {
    PrefixStep(q, i);
  }

  /** Growing the written prefix by one context. */
  lemma PrefixStep(q: seq<Ctx>, i: nat)
    requires i < |q|
    ensures Payloads(q[..i + 1]) == Payloads(q[..i]) + [PayloadOf(q[i])]
    ensures Emptied(q[..i + 1]) == Emptied(q[..i]) + [q[i].(payload := None)]
  {
    assert q[..i + 1] == q[..i] + [q[i]];
  }

  /** `resume_write_queue`: write queued payloads in order, returning each
      buffer to the pool and moving its context to `finished_queue`; stop
      after a partial write (false).  When every write was full, release
      `finished_queue` and return true. */
  function Resumed(s: Con, nwrite: nat -> int): (Con, bool)
  {
    var q := s.dataQueue;
    var n := Sent(q, nwrite);
    var l1 := Written(s.log, q[..n]);
    var fin := s.finishedQueue + Emptied(q[..n]);
    if Drained(q, nwrite) then
      (s.(dataQueue := [], finishedQueue := [], log := Release(l1, fin, None, false)), true)
    else
      (s.(dataQueue := q[n..], finishedQueue := fin, log := l1), false)
  }

  /** Resuming keeps FIFO order: the payloads written are a prefix of the
      queue, the rest stays queued in order; true exactly when every write
      was full, and then both queues are empty. */
  lemma ResumedFifo(s: Con, nwrite: nat -> int)
    ensures var r, drained := Resumed(s, nwrite).0, Resumed(s, nwrite).1;
            var n := Sent(s.dataQueue, nwrite);
            && r.log.writes == s.log.writes + Payloads(s.dataQueue[..n])
            && Payloads(s.dataQueue[..n]) + Payloads(r.dataQueue) == Payloads(s.dataQueue)
            && (drained <==> Drained(s.dataQueue, nwrite))
            && (drained ==> r.dataQueue == [] && r.finishedQueue == [])
            && (!drained ==> r.dataQueue == s.dataQueue[n..]
                             && r.finishedQueue == s.finishedQueue + Emptied(s.dataQueue[..n])
                             && r.log.destroyed == s.log.destroyed)
            && r.writePaused == s.writePaused && r.present == s.present && r.ioBound == s.ioBound
  {
    var q := s.dataQueue;
    var n := Sent(q, nwrite);
    var l1 := Written(s.log, q[..n]);
    PayloadsSplit(q, n);
    if Drained(q, nwrite) {
      ReleaseFrame(l1, s.finishedQueue + Emptied(q[..n]), None, false);
      assert q[..n] == q;
      assert Resumed(s, nwrite).0.log.writes == l1.writes;
    } else {
      assert Resumed(s, nwrite).0.log == l1;
    }
  }

  lemma PayloadsSplit(q: seq<Ctx>, n: nat)
    requires n <= |q|
    ensures Payloads(q[..n]) + Payloads(q[n..]) == Payloads(q)
  {
    assert forall i :: n <= i < |q| ==> q[n..][i - n] == q[i];
  }

  /** A drained resume writes the whole queue and releases both queues. */
  lemma ResumedDrained(s: Con, nwrite: nat -> int)
    requires Drained(s.dataQueue, nwrite)
    ensures Resumed(s, nwrite).1
    ensures Resumed(s, nwrite).0
              == s.(dataQueue := [], finishedQueue := [],
                    log := Release(Written(s.log, s.dataQueue), s.finishedQueue + Emptied(s.dataQueue), None, false))
  {
    var q := s.dataQueue;
    assert Sent(q, nwrite) == |q|;
    assert q[..|q|] == q;
  }

  /** A resume stopped by a partial write keeps the unwritten rest queued. */
  lemma ResumedPartial(s: Con, nwrite: nat -> int)
    requires !Drained(s.dataQueue, nwrite)
    ensures var n := Sent(s.dataQueue, nwrite);
            && !Resumed(s, nwrite).1
            && Resumed(s, nwrite).0
                 == s.(dataQueue := s.dataQueue[n..], finishedQueue := s.finishedQueue + Emptied(s.dataQueue[..n]),
                       log := Written(s.log, s.dataQueue[..n]))
  {
  }

  /** A drained resume destroys every context of `finished_queue` and then
      of `data_queue`, each once, in order. */
  lemma ResumedDrainedDestroysAll(s: Con, nwrite: nat -> int)
    requires Drained(s.dataQueue, nwrite)
    ensures Resumed(s, nwrite).0.log.destroyed == s.log.destroyed + Ids(s.finishedQueue) + Ids(s.dataQueue)
  {
    var q := s.dataQueue;
    var l1 := Written(s.log, q);
    ResumedDrained(s, nwrite);
    ReleaseDestroyed(l1, s.finishedQueue + Emptied(q), None, false);
    IdsAppend(s.finishedQueue, Emptied(q));
    EmptiedIds(q);
  }

  lemma EmptiedIds(q: seq<Ctx>)
    ensures Ids(Emptied(q)) == Ids(q)
  {
  }

  lemma {:induction false} IdsAppend(a: seq<Ctx>, b: seq<Ctx>)
    ensures Ids(a + b) == Ids(a) + Ids(b)
  {
    assert |Ids(a + b)| == |Ids(a) + Ids(b)|;
    forall i | 0 <= i < |a + b|
      ensures Ids(a + b)[i] == (Ids(a) + Ids(b))[i]
    {
      if i >= |a| {
        assert (a + b)[i] == b[i - |a|];
      }
    }
  }

  // ---------------------------------------------------------------------
  // Callbacks on the upstream socket

  /** `on_write_complete`: nothing without a state or before the write is
      complete; otherwise clear the callback and the flag, resume the
      queue, and on a partial write reinstall both and stop; else release
      `finished_queue`. */
  function WriteCompleted(s: Con, complete: bool, nwrite: nat -> int): Con
  {
    if !s.ioBound || !complete then s
    else
      var s1 := s.(writeCb := false, writePaused := false);
      if |s1.dataQueue| > 0 && !Drained(s1.dataQueue, nwrite) then
        Resumed(s1, nwrite).0.(writeCb := true, writePaused := true)
      else
        var s2 := if |s1.dataQueue| > 0 then Resumed(s1, nwrite).0 else s1;
        s2.(finishedQueue := [], log := Release(s2.log, s2.finishedQueue, None, false))
  }

  /** After a complete write the line stays paused (with the callback)
      exactly when the queue could not be drained; otherwise it is unpaused
      with both queues empty. */
  lemma WriteCompletePausesIffPending(s: Con, nwrite: nat -> int)
    requires s.ioBound
    ensures var r := WriteCompleted(s, true, nwrite);
            && (r.writePaused <==> |s.dataQueue| > 0 && !Drained(s.dataQueue, nwrite))
            && r.writeCb == r.writePaused
            && (!r.writePaused ==> r.dataQueue == [] && r.finishedQueue == [])
  {
    var s1 := s.(writeCb := false, writePaused := false);
    if |s1.dataQueue| > 0 {
      ResumedFifo(s1, nwrite);
    }
  }

  /** `on_recv`: wrap the received bytes in a new context from this socket
      and pass it down (`connectorDownStream` forwards it). */
  function Received(s: Con, bytes: Bytes): Con
  {
    if !s.ioBound then s
    else
      var c := Ctx(s.nextId, s.io, Some(bytes), false, false, false);
      s.(nextId := s.nextId + 1, log := s.log.(down := s.log.down + [c]))
  }

  /** `on_close`: pass a new Finish context down, which cleans the state up. */
  function Closed(s: Con): Con
  {
    if !s.ioBound then s
    else
      var c := Ctx(s.nextId, None, None, false, true, false);
      var s1 := CleanedUp(s.(nextId := s.nextId + 1));
      s1.(log := s1.log.(down := s1.log.down + [c]))
  }

  /** Callbacks that find no state do nothing. */
  lemma NullStateCallbacksIgnored(s: Con, complete: bool, nwrite: nat -> int, bytes: Bytes)
    requires !s.ioBound
    ensures WriteCompleted(s, complete, nwrite) == s
    ensures Received(s, bytes) == s && Closed(s) == s
  {
  }

  // ---------------------------------------------------------------------
  // `connectorUpStream`

  /** The payload branch: while paused, stop reading the source and queue
      the context; otherwise write it, and on a partial write stop reading
      the source, hand the buffer back, park the context in
      `finished_queue` and pause; on a full write hand the buffer back and
      destroy the context. */
  function PayloadUp(s: Con, c: Ctx, nwrite: int): Con
  {
    var stops := if c.srcIo.Some? then s.log.readStops + [c.srcIo.value] else s.log.readStops;
    if s.writePaused then
      s.(log := s.log.(readStops := stops), dataQueue := s.dataQueue + [c])
    else
      var p := PayloadOf(c);
      var l1 := s.log.(writes := s.log.writes + [p], recycled := s.log.recycled + [p]);
      if 0 <= nwrite < |p| then
        s.(log := l1.(readStops := stops), finishedQueue := s.finishedQueue + [c.(payload := None)],
           writePaused := true, writeCb := true)
      else
        s.(log := l1.(destroyed := l1.destroyed + [c.id]))
  }

  /** While paused, a payload stops its source's reads and is queued last,
      nothing is written; unpaused, it is written once and the line pauses
      exactly on a partial write. */
  lemma UpPayloadRule(s: Con, c: Ctx, nwrite: int)
    requires Valid(s) && c.payload.Some?
    ensures var r := PayloadUp(s, c, nwrite);
            && Valid(r)
            && (s.writePaused ==> r.dataQueue == s.dataQueue + [c] && r.log.writes == s.log.writes && r.writePaused)
            && (!s.writePaused ==> r.dataQueue == s.dataQueue && r.log.writes == s.log.writes + [c.payload.value]
                                   && (r.writePaused <==> 0 <= nwrite < |c.payload.value|))
            && (c.srcIo.Some? && (s.writePaused || 0 <= nwrite < |c.payload.value|) ==>
                  r.log.readStops == s.log.readStops + [c.srcIo.value])
  {
  }

  /** `dest_addr.status` / `dest_port.status`: `cdvs_from_source`,
      `cdvs_from_dest`, or a configured value. */
  datatype Source = FromSource | FromDest | Configured

  /** `socket_context_t`: a domain name (with its resolved flag) or a
      numeric address, and a port. */
  datatype SocketContext = SocketContext(domain: Option<string>, ip: Bytes, port: uint16, resolved: bool)

  /** The tunnel settings the set-up reads: where the address and port come
      from, and the configured domain or address and port. */
  datatype Settings = Settings(
    addrFrom: Source, portFrom: Source, destDomain: Option<string>, destIp: Bytes, destPort: uint16)

  /** `final_ctx` after the address and port rules (copying the address
      part of the source or destination context as intended). */
  function FinalContext(cfg: Settings, src: SocketContext, dest: SocketContext): (f: SocketContext)
    ensures cfg.addrFrom == FromSource ==> f.domain == src.domain && f.ip == src.ip && f.resolved == src.resolved
    ensures cfg.addrFrom == FromDest ==> f.domain == dest.domain && f.ip == dest.ip && f.resolved == dest.resolved
    ensures cfg.addrFrom == Configured ==> f.domain == cfg.destDomain && !f.resolved
    ensures cfg.addrFrom == Configured && cfg.destDomain.None? ==> f.ip == cfg.destIp
    ensures f.port == match cfg.portFrom
                      case FromSource => src.port
                      case FromDest => dest.port
                      case Configured => cfg.destPort
  {
    var a := match cfg.addrFrom
             case FromSource => src
             case FromDest => dest
             case Configured =>
               if cfg.destDomain.Some? then SocketContext(cfg.destDomain, [], 0, false)
               else SocketContext(None, cfg.destIp, 0, false);
    var port := match cfg.portFrom
                case FromSource => src.port
                case FromDest => dest.port
                case Configured => cfg.destPort;
    a.(port := port)
  }

  /** What the environment answers during set-up: whether resolving a
      domain succeeds and the descriptor `socket()` returns. */
  datatype SetUpEnv = SetUpEnv(resolveOk: bool, sockfd: int)

  /** Whether the set-up fails: an unresolved domain that does not resolve,
      or a negative descriptor. */
  predicate SetUpFails(f: SocketContext, env: SetUpEnv)
  {
    (f.domain.Some? && !f.resolved && !env.resolveOk) || env.sockfd < 0
  }

  /** The `init` branch: a blank paused state; on failure clean it up, free
      the slot and send one new Finish context back; on success bind the
      new socket and issue one connect.  The init context is destroyed. */
  function InitUp(s: Con, c: Ctx, cfg: Settings, src: SocketContext, dest: SocketContext, env: SetUpEnv): Con
  {
    var blank := Blank(s);
    if SetUpFails(FinalContext(cfg, src, dest), env) then SetUpFailed(blank, c)
    else SetUpConnected(blank, c, env.sockfd)
  }

  /** The fresh, paused state `connectorUpStream` allocates. */
  function Blank(s: Con): Con
  {
    Con(true, None, false, true, false, false, [], [], s.log, s.nextId)
  }

  /** A failed set-up: clean up, free the slot, send a Finish back. */
  function SetUpFailed(s: Con, c: Ctx): Con
  {
    var cleaned := CleanedUp(s);
    var fin := Ctx(s.nextId, None, None, false, true, false);
    cleaned.(nextId := s.nextId + 1,
             log := cleaned.log.(down := cleaned.log.down + [fin], destroyed := cleaned.log.destroyed + [c.id]))
  }

  /** A successful set-up: bind the socket, connect, destroy the context. */
  function SetUpConnected(s: Con, c: Ctx, sockfd: int): Con
    requires sockfd >= 0
  {
    s.(io := Some(sockfd), ioBound := true,
       log := s.log.(connects := s.log.connects + [sockfd], destroyed := s.log.destroyed + [c.id]))
  }

  /** A new state starts paused, so payload before Establish is queued.  A
      failed set-up leaves no state, sends exactly one Finish back and
      connects nothing; a successful one connects exactly once. */
  lemma UpInitOutcome(s: Con, c: Ctx, cfg: Settings, src: SocketContext, dest: SocketContext, env: SetUpEnv)
    ensures var r := InitUp(s, c, cfg, src, dest, env);
            var f := FinalContext(cfg, src, dest);
            && Valid(r)
            && r.dataQueue == [] && r.finishedQueue == [] && r.log.destroyed == s.log.destroyed + [c.id]
            && (SetUpFails(f, env) ==>
                  && !r.present && r.log.connects == s.log.connects
                  && |r.log.down| == |s.log.down| + 1 && r.log.down[|s.log.down|].fin)
            && (!SetUpFails(f, env) ==>
                  && r.present && r.writePaused && !r.established
                  && r.log.connects == s.log.connects + [env.sockfd] && r.log.down == s.log.down)
  {
    ReleaseClosedForm(s.log, [], None, true);
    ReleaseClosedForm(s.log, [], LastAfter([], None), false);
  }

  /** The `fin` branch: clean the state up, destroy the context, close the
      socket. */
  function FinUp(s: Con, c: Ctx): Con
  {
    var r := CleanedUp(s);
    r.(log := r.log.(destroyed := r.log.destroyed + [c.id],
                     closes := if s.io.Some? then r.log.closes + [s.io.value] else r.log.closes))
  }

  // ---------------------------------------------------------------------
  // `connectorDownStream`

  /** The `est` branch: mark established, start reading, resume the queue;
      unpause when it drained, else install the write callback; pass the
      context down. */
  function EstDown(s: Con, c: Ctx, nwrite: nat -> int): Con
    requires s.io.Some?
  {
    var r := Resumed(Started(s), nwrite);
    PassedOn(AfterResume(r.0, r.1), c)
  }

  /** Mark the line established and start reading on its socket. */
  function Started(s: Con): Con
    requires s.io.Some?
  {
    s.(established := true, log := s.log.(readStarts := s.log.readStarts + [s.io.value]))
  }

  /** Writing stays paused, waiting for the write callback, unless the
      queue was drained. */
  function AfterResume(s: Con, drained: bool): Con
  {
    if drained then s.(writePaused := false) else s.(writeCb := true)
  }

  /** Pass a context on to the previous node. */
  function PassedOn(s: Con, c: Ctx): Con
  {
    s.(log := s.log.(down := s.log.down + [c]))
  }

  /** The `fin` branch: clean the state up and pass the context down. */
  function FinDown(s: Con, c: Ctx): Con
  {
    var r := CleanedUp(s);
    r.(log := r.log.(down := r.log.down + [c]))
  }

  /** `onOutBoundConnected`: a new Establish context from the outbound
      socket goes to `connectorDownStream`. */
  function OutBoundConnected(s: Con, nwrite: nat -> int): Con
    requires s.io.Some?
  {
    EstDown(Bumped(s), EstablishCtx(s), nwrite)
  }

  /** The Establish context `onOutBoundConnected` creates from the socket. */
  function EstablishCtx(s: Con): Ctx
  {
    Ctx(s.nextId, s.io, None, false, false, true)
  }

  /** The state once a new context id is taken. */
  function Bumped(s: Con): Con
  {
    s.(nextId := s.nextId + 1)
  }

  /** `connectorUpStream`: payload first, then the init and fin flags; any
      other context is ignored. */
  function UpStreamed(s: Con, c: Ctx, nwrite: int, cfg: Settings, src: SocketContext, dest: SocketContext, env: SetUpEnv): Con
  {
    if c.payload.Some? then PayloadUp(s, c, nwrite)
    else if c.init then InitUp(s, c, cfg, src, dest, env)
    else if c.fin then FinUp(s, c)
    else s
  }

  /** `connectorDownStream`: payload is passed down as is; Establish and
      Finish act on the state first; any other context is ignored. */
  function DownStreamed(s: Con, c: Ctx, nwrite: nat -> int): Con
    requires c.payload.None? && c.est ==> s.io.Some?
  {
    if c.payload.Some? then s.(log := s.log.(down := s.log.down + [c]))
    else if c.est then EstDown(s, c, nwrite)
    else if c.fin then FinDown(s, c)
    else s
  }

  /** Resuming keeps every context in `data_queue` holding its payload. */
  lemma ResumedKeepsValid(s: Con, nwrite: nat -> int)
    requires Valid(s)
    ensures Valid(Resumed(s, nwrite).0)
  {
    var q := s.dataQueue;
    if Drained(q, nwrite) {
      ResumedDrained(s, nwrite);
    } else {
      var n := Sent(q, nwrite);
      ResumedPartial(s, nwrite);
      var r := Resumed(s, nwrite).0;
      forall i | 0 <= i < |r.dataQueue|
        ensures r.dataQueue[i].payload.Some?
      {
        assert r.dataQueue[i] == q[n + i];
      }
    }
  }

  /** Write-complete events keep the shape invariant. */
  lemma WriteCompleteKeepsValid(s: Con, complete: bool, nwrite: nat -> int)
    requires Valid(s)
    ensures Valid(WriteCompleted(s, complete, nwrite))
  {
    if s.ioBound && complete {
      ResumedKeepsValid(s.(writeCb := false, writePaused := false), nwrite);
    }
  }

  /** Received data and a close keep the shape invariant; a close frees the
      state with both queues empty. */
  lemma ReceiveAndCloseKeepValid(s: Con, bytes: Bytes)
    requires Valid(s)
    ensures Valid(Received(s, bytes))
    ensures Valid(Closed(s))
    ensures s.ioBound ==> !Closed(s).present && Closed(s).dataQueue == [] && Closed(s).finishedQueue == []
  {
    CleanupReleasesAll(s.(nextId := s.nextId + 1));
  }

  /** The Establish context marks the line established and unpauses it
      exactly when the queue drains; otherwise it installs the write
      callback and stays paused. */
  lemma ConnectedResumes(s: Con, nwrite: nat -> int)
    requires Valid(s) && s.io.Some?
    ensures var r := OutBoundConnected(s, nwrite);
            && Valid(r) && r.established
            && (r.writePaused <==> s.writePaused && !Drained(s.dataQueue, nwrite))
            && (!Drained(s.dataQueue, nwrite) ==> r.writeCb)
  {
    var s2 := Started(Bumped(s));
    assert s2.dataQueue == s.dataQueue && s2.writePaused == s.writePaused && Valid(s2);
    var r := Resumed(s2, nwrite);
    ResumedKeepsValid(s2, nwrite);
    ResumedFifo(s2, nwrite);
    assert r.0.established;
    var a := AfterResume(r.0, r.1);
    assert Valid(a) && a.established;
    assert OutBoundConnected(s, nwrite) == PassedOn(a, EstablishCtx(s));
  }

  /** The connector's slot on one line: `CSTATE(c)` and the state it points
      to, with the upstream socket's userdata link and the log. */
  class Connector {
    var present: bool
    var io: Option<IoId>
    var ioBound: bool
    var writePaused: bool
    var writeCb: bool
    var established: bool
    var dataQueue: seq<Ctx>
    var finishedQueue: seq<Ctx>
    var log: Log
    var nextId: nat

    function View(): Con
      reads this
    {
      Con(present, io, ioBound, writePaused, writeCb, established, dataQueue, finishedQueue, log, nextId)
    }

    /** The fields the write loop leaves alone. */
    ghost function Untouched(): (bool, Option<IoId>, bool, bool, bool, bool, nat)
      reads this
    {
      (present, io, ioBound, writePaused, writeCb, established, nextId)
    }

    /** A line the connector has not set up yet. */
    constructor ()
      ensures View() == Con(false, None, false, false, false, false, [], [],
                            Log([], [], [], [], [], [], [], [], []), 0)
      ensures Valid(View())
    {
      present := false;
      io := None;
      ioBound := false;
      writePaused := false;
      writeCb := false;
      established := false;
      dataQueue := [];
      finishedQueue := [];
      log := Log([], [], [], [], [], [], [], [], []);
      nextId := 0;
    }

    /** The `data_queue` loop of `cleanup`. */
    method ReleaseData(last: Option<IoId>) returns (newLast: Option<IoId>)
      modifies this
      ensures dataQueue == [] && log == Release(old(log), old(dataQueue), last, true)
      ensures newLast == LastAfter(old(dataQueue), last)
      ensures present == old(present) && io == old(io) && ioBound == old(ioBound)
      ensures writePaused == old(writePaused) && writeCb == old(writeCb) && established == old(established)
      ensures finishedQueue == old(finishedQueue) && nextId == old(nextId)
    {
      newLast := last;
      while |dataQueue| > 0
        invariant Release(log, dataQueue, newLast, true) == Release(old(log), old(dataQueue), last, true)
        invariant LastAfter(dataQueue, newLast) == LastAfter(old(dataQueue), last)
        invariant present == old(present) && io == old(io) && ioBound == old(ioBound)
        invariant writePaused == old(writePaused) && writeCb == old(writeCb) && established == old(established)
        invariant finishedQueue == old(finishedQueue) && nextId == old(nextId)
        decreases |dataQueue|
      {
        var cw := dataQueue[0];
        dataQueue := dataQueue[1..];
        newLast := ReleaseContext(cw, newLast, true);
      }
    }

    /** The `finished_queue` loop of `cleanup`, `resume_write_queue` and
        `on_write_complete`. */
    method ReleaseFinished(last: Option<IoId>) returns (newLast: Option<IoId>)
      modifies this
      ensures finishedQueue == [] && log == Release(old(log), old(finishedQueue), last, false)
      ensures newLast == LastAfter(old(finishedQueue), last)
      ensures present == old(present) && io == old(io) && ioBound == old(ioBound)
      ensures writePaused == old(writePaused) && writeCb == old(writeCb) && established == old(established)
      ensures dataQueue == old(dataQueue) && nextId == old(nextId)
    {
      newLast := last;
      while |finishedQueue| > 0
        invariant Release(log, finishedQueue, newLast, false) == Release(old(log), old(finishedQueue), last, false)
        invariant LastAfter(finishedQueue, newLast) == LastAfter(old(finishedQueue), last)
        invariant present == old(present) && io == old(io) && ioBound == old(ioBound)
        invariant writePaused == old(writePaused) && writeCb == old(writeCb) && established == old(established)
        invariant dataQueue == old(dataQueue) && nextId == old(nextId)
        decreases |finishedQueue|
      {
        var cw := finishedQueue[0];
        finishedQueue := finishedQueue[1..];
        newLast := ReleaseContext(cw, newLast, false);
      }
    }

    /** One iteration of the release loops: restart reads on the source
        socket unless it was the last one restarted, discard the payload
        (in the `data_queue` loop), destroy the context. */
    method ReleaseContext(cw: Ctx, last: Option<IoId>, discard: bool) returns (newLast: Option<IoId>)
      modifies this
      ensures log == ReleaseOne(old(log), cw, last, discard) && newLast == NextLast(cw, last)
      ensures present == old(present) && io == old(io) && ioBound == old(ioBound)
      ensures writePaused == old(writePaused) && writeCb == old(writeCb) && established == old(established)
      ensures dataQueue == old(dataQueue) && finishedQueue == old(finishedQueue) && nextId == old(nextId)
    {
      newLast := last;
      var l := log;
      if cw.srcIo.Some? && last != cw.srcIo {
        newLast := cw.srcIo;
        l := l.(readStarts := l.readStarts + [cw.srcIo.value]);
      }
      if discard && cw.payload.Some? {
        l := l.(discarded := l.discarded + [cw.id]);
      }
      log := l.(destroyed := l.destroyed + [cw.id]);
    }

    /** `cleanup`. */
    method Cleanup()
      modifies this
      ensures View() == CleanedUp(old(View()))
    {
      if io.Some? {
        ioBound := false;
      }
      var last := ReleaseData(None);
      last := ReleaseFinished(last);
      present := false;
    }

    /** The write loop of `resume_write_queue`: pop, write, hand the buffer
        back, park the context in `finished_queue`; stop after a partial
        write.  True when every write was full. */
    method WriteQueued(nwrite: nat -> int) returns (drained: bool)
      requires forall j :: 0 <= j < |dataQueue| ==> dataQueue[j].payload.Some?
      modifies this
      ensures var q, n := old(dataQueue), Sent(old(dataQueue), nwrite);
              && drained == Drained(q, nwrite)
              && dataQueue == q[n..]
              && finishedQueue == old(finishedQueue) + Emptied(q[..n])
              && log == Written(old(log), q[..n])
      ensures Untouched() == old(Untouched())
    {
      ghost var q := dataQueue;
      var i := 0;
      while |dataQueue| > 0
        invariant i <= |q| && dataQueue == q[i..]
        invariant finishedQueue == old(finishedQueue) + Emptied(q[..i])
        invariant log == Written(old(log), q[..i])
        invariant forall j :: 0 <= j < i ==> !(0 <= nwrite(j) < |PayloadOf(q[j])|)
        invariant Untouched() == old(Untouched())
        decreases |dataQueue|
      {
        var bytes := WriteFront(q, i, old(finishedQueue), old(log));
        var n := nwrite(i);
        if 0 <= n < bytes {
          SentStops(q, nwrite, i);
          i := i + 1;
          return false;
        }
        i := i + 1;
      }
      SentAll(q, nwrite);
      assert q[..|q|] == q;
      return true;
    }

    /** One turn of the write loop: pop the front context, write its
        payload, hand the buffer back, park the context. */
    method WriteFront(ghost q: seq<Ctx>, ghost i: nat, ghost fin0: seq<Ctx>, ghost log0: Log) returns (bytes: nat)
      requires i < |q| && dataQueue == q[i..] && q[i].payload.Some?
      requires finishedQueue == fin0 + Emptied(q[..i]) && log == Written(log0, q[..i])
      modifies this
      ensures bytes == |PayloadOf(q[i])|
      ensures dataQueue == q[i + 1..]
      ensures finishedQueue == fin0 + Emptied(q[..i + 1]) && log == Written(log0, q[..i + 1])
      ensures Untouched() == old(Untouched())
    {
      PrefixStep(q, i);
      WrittenStep(log0, q, i);
      var cw := dataQueue[0];
      dataQueue := dataQueue[1..];
      bytes := |cw.payload.value|;
      log := log.(writes := log.writes + [cw.payload.value], recycled := log.recycled + [cw.payload.value]);
      finishedQueue := finishedQueue + [cw.(payload := None)];
    }

    /** `resume_write_queue`; `nwrite(i)` is the socket's answer to the
        i-th write. */
    method ResumeWriteQueue(nwrite: nat -> int) returns (drained: bool)
      requires Valid(View())
      modifies this
      ensures (View(), drained) == Resumed(old(View()), nwrite)
    {
      drained := WriteQueued(nwrite);
      if drained {
        var last := ReleaseFinished(None);
      }
    }

    /** `on_write_complete`; `complete` is `hio_write_is_complete`. */
    method OnWriteComplete(complete: bool, nwrite: nat -> int)
      requires Valid(View())
      modifies this
      ensures View() == WriteCompleted(old(View()), complete, nwrite)
    {
      if !ioBound {
        return;
      }
      if complete {
        writeCb := false;
        writePaused := false;
        if |dataQueue| > 0 {
          var drained := ResumeWriteQueue(nwrite);
          if !drained {
            writeCb := true;
            writePaused := true;
            return;
          }
        }
        var last := ReleaseFinished(None);
      }
    }

    /** `on_recv`. */
    method OnRecv(bytes: Bytes)
      modifies this
      ensures View() == Received(old(View()), bytes)
    {
      if !ioBound {
        return;
      }
      var c := Ctx(nextId, io, Some(bytes), false, false, false);
      nextId := nextId + 1;
      log := log.(down := log.down + [c]);
    }

    /** `on_close`. */
    method OnClose()
      modifies this
      ensures View() == Closed(old(View()))
    {
      if !ioBound {
        return;
      }
      var c := Ctx(nextId, None, None, false, true, false);
      nextId := nextId + 1;
      Cleanup();
      log := log.(down := log.down + [c]);
    }

    /** `onOutBoundConnected`. */
    method OnOutBoundConnected(nwrite: nat -> int)
      requires Valid(View()) && ioBound
      modifies this
      ensures View() == OutBoundConnected(old(View()), nwrite)
    {
      var c := NewEstablish();
      EstablishDown(c, nwrite);
    }

    /** The Establish context `onOutBoundConnected` creates. */
    method NewEstablish() returns (c: Ctx)
      modifies this
      ensures c == EstablishCtx(old(View())) && View() == Bumped(old(View()))
    {
      c := Ctx(nextId, io, None, false, false, true);
      nextId := nextId + 1;
    }

    /** The payload branch of `connectorUpStream`. */
    method UpStreamPayload(c: Ctx, nwrite: int)
      requires c.payload.Some?
      modifies this
      ensures View() == PayloadUp(old(View()), c, nwrite)
    {
      if writePaused {
        if c.srcIo.Some? {
          log := log.(readStops := log.readStops + [c.srcIo.value]);
        }
        dataQueue := dataQueue + [c];
      } else {
        var bytes := |c.payload.value|;
        log := log.(writes := log.writes + [c.payload.value]);
        if 0 <= nwrite < bytes {
          if c.srcIo.Some? {
            log := log.(readStops := log.readStops + [c.srcIo.value]);
          }
          log := log.(recycled := log.recycled + [c.payload.value]);
          finishedQueue := finishedQueue + [c.(payload := None)];
          writePaused := true;
          writeCb := true;
        } else {
          log := log.(recycled := log.recycled + [c.payload.value]);
          log := log.(destroyed := log.destroyed + [c.id]);
        }
      }
    }

    /** The init branch of `connectorUpStream`; `src`/`dest` are the line's
        routing contexts. */
    method UpStreamInit(c: Ctx, cfg: Settings, src: SocketContext, dest: SocketContext, env: SetUpEnv)
      modifies this
      ensures View() == InitUp(old(View()), c, cfg, src, dest, env)
    {
      Reset();
      var f := FinalContext(cfg, src, dest);
      if f.domain.Some? && !f.resolved && !env.resolveOk {
        FailSetUp(c);
        return;
      }
      if env.sockfd < 0 {
        FailSetUp(c);
        return;
      }
      Connect(c, env.sockfd);
    }

    /** The allocation of a fresh, paused state. */
    method Reset()
      modifies this
      ensures View() == Blank(old(View()))
    {
      present := true;
      io := None;
      ioBound := false;
      writeCb := false;
      established := false;
      dataQueue := [];
      finishedQueue := [];
      writePaused := true;
    }

    /** Binding the new socket and issuing the connect. */
    method Connect(c: Ctx, sockfd: int)
      requires sockfd >= 0
      modifies this
      ensures View() == SetUpConnected(old(View()), c, sockfd)
    {
      io := Some(sockfd);
      ioBound := true;
      log := log.(connects := log.connects + [sockfd]);
      log := log.(destroyed := log.destroyed + [c.id]);
    }

    /** A failed set-up: `cleanup`, then the `fail:` label. */
    method FailSetUp(c: Ctx)
      requires io.None? && dataQueue == [] && finishedQueue == []
      modifies this
      ensures View() == SetUpFailed(old(View()), c)
    {
      Cleanup();
      var fin := Ctx(nextId, None, None, false, true, false);
      nextId := nextId + 1;
      log := log.(down := log.down + [fin], destroyed := log.destroyed + [c.id]);
    }

    /** The fin branch of `connectorUpStream`. */
    method UpStreamFin(c: Ctx)
      modifies this
      ensures View() == FinUp(old(View()), c)
    {
      var closing := io;
      Cleanup();
      log := log.(destroyed := log.destroyed + [c.id]);
      if closing.Some? {
        log := log.(closes := log.closes + [closing.value]);
      }
    }

    /** `connectorUpStream`; `nwrite` answers the write of a payload. */
    method UpStream(c: Ctx, nwrite: int, cfg: Settings, src: SocketContext, dest: SocketContext, env: SetUpEnv)
      requires c.payload.Some? || (!c.init && c.fin) ==> present
      modifies this
      ensures View() == UpStreamed(old(View()), c, nwrite, cfg, src, dest, env)
    {
      if c.payload.Some? {
        UpStreamPayload(c, nwrite);
      } else if c.init {
        UpStreamInit(c, cfg, src, dest, env);
      } else if c.fin {
        UpStreamFin(c);
      }
    }

    /** `connectorDownStream`; `nwrite(i)` answers the i-th queued write an
        Establish context resumes. */
    method DownStream(c: Ctx, nwrite: nat -> int)
      requires Valid(View())
      requires c.payload.None? && (c.est || c.fin) ==> present
      modifies this
      ensures View() == DownStreamed(old(View()), c, nwrite)
    {
      if c.payload.Some? {
        log := log.(down := log.down + [c]);
      } else if c.est {
        EstablishDown(c, nwrite);
      } else if c.fin {
        Cleanup();
        log := log.(down := log.down + [c]);
      }
    }

    /** The Establish branch of `connectorDownStream`: start reading,
        resume the write queue, pass the context on. */
    method EstablishDown(c: Ctx, nwrite: nat -> int)
      requires Valid(View()) && io.Some?
      modifies this
      ensures View() == EstDown(old(View()), c, nwrite)
    {
      StartReading();
      var drained := ResumeWriteQueue(nwrite);
      SetWriteFlags(drained);
      PassOn(c);
    }

    method SetWriteFlags(drained: bool)
      modifies this
      ensures View() == AfterResume(old(View()), drained)
    {
      if drained {
        writePaused := false;
      } else {
        writeCb := true;
      }
    }

    method StartReading()
      requires Valid(View()) && io.Some?
      modifies this
      ensures View() == Started(old(View())) && Valid(View())
    {
      established := true;
      log := log.(readStarts := log.readStarts + [io.value]);
    }

    method PassOn(c: Ctx)
      modifies this
      ensures View() == PassedOn(old(View()), c)
    {
      log := log.(down := log.down + [c]);
    }
  }
}
