/** The `select()` watcher bookkeeping of `select.c`: per event kind a set of
    registered descriptors with a counter that must equal its size, and a
    `max_fd` bound that deleting the current maximum resets to -1 and the
    next poll recomputes from the loop's ios.

    The `select()` call itself, the fd-readiness scan after it and
    `remove_bad_fds` are not part of this model; a poll that gets past the
    early exits is reported as the `select()` it would issue. */
module SelectWatcher {

  import opened Common

  /** The `WW_READ` / `WW_WRITE` bits of an `events` word. */
  datatype Events = Events(read: bool, write: bool)
  {
    predicate Any() { read || write }
  }

  /** The part of a `wio_t` the watcher looks at. */
  datatype Io = Io(active: bool, events: Events)

  /** One event kind's descriptor set and its counter (`readfds`/`nread`,
      `writefds`/`nwrite`). */
  datatype Tally = Tally(fds: set<nat>, count: int)
  {
    predicate Valid() { count == |fds| }
  }

  /** A value snapshot of `select_ctx_t`. */
  datatype Watch = Watch(maxFd: int, read: Tally, write: Tally)
  {
    predicate Valid() { maxFd >= -1 && read.Valid() && write.Valid() }

    predicate Registered(fd: nat) { fd in read.fds || fd in write.fds }

    /** `max_fd` bounds every registered descriptor, unless it is -1 (to be
        recomputed).  `select(max_fd + 1, ...)` polls only descriptors below
        the bound, so a registered descriptor above it is never polled. */
    ghost predicate Covers() { maxFd == -1 || forall fd: nat :: Registered(fd) ==> fd <= maxFd }
  }

  /** A freshly initialised watcher. */
  const FreshWatch := Watch(-1, Tally({}, 0), Tally({}, 0))

  /** `FD_SET` guarded by `FD_ISSET`: the counter moves only for a new fd. */
  function TallyAdd(t: Tally, fd: nat): (r: Tally)
    ensures r.fds == t.fds + {fd}
    ensures t.Valid() ==> r.Valid()
    ensures fd in t.fds ==> r == t
  {
    if fd in t.fds then t else Tally(t.fds + {fd}, t.count + 1)
  }

  /** `FD_CLR` guarded by `FD_ISSET`: the counter moves only for a present fd. */
  function TallyDel(t: Tally, fd: nat): (r: Tally)
    ensures r.fds == t.fds - {fd}
    ensures t.Valid() ==> r.Valid()
    ensures fd !in t.fds ==> r == t
  {
    if fd in t.fds then Tally(t.fds - {fd}, t.count - 1) else t
  }

  /** `iowatcherAddEvent` as written: `max_fd` is raised to `fd` whenever
      `fd > max_fd`, including when `max_fd` is the -1 "recompute" mark. */
  function AddedAsWritten(w: Watch, fd: nat, ev: Events): (r: Watch)
    ensures r.maxFd >= w.maxFd && r.maxFd >= fd
    ensures r.read.fds == (if ev.read then w.read.fds + {fd} else w.read.fds)
    ensures r.write.fds == (if ev.write then w.write.fds + {fd} else w.write.fds)
    ensures w.Valid() ==> r.Valid()
  {
    Watch(if fd > w.maxFd then fd else w.maxFd,
          if ev.read then TallyAdd(w.read, fd) else w.read,
          if ev.write then TallyAdd(w.write, fd) else w.write)
  }

  /** `iowatcherAddEvent` with the intended bound: a -1 `max_fd` stays -1 so
      that the next poll recomputes it over every registered descriptor. */
  function Added(w: Watch, fd: nat, ev: Events): (r: Watch)
    ensures r.maxFd >= w.maxFd
    ensures w.maxFd != -1 ==> r.maxFd >= fd
    ensures r.read.fds == (if ev.read then w.read.fds + {fd} else w.read.fds)
    ensures r.write.fds == (if ev.write then w.write.fds + {fd} else w.write.fds)
    ensures w.Valid() ==> r.Valid()
  {
    Watch(if w.maxFd != -1 && fd > w.maxFd then fd else w.maxFd,
          if ev.read then TallyAdd(w.read, fd) else w.read,
          if ev.write then TallyAdd(w.write, fd) else w.write)
  }

  /** `iowatcherDelEvent` on an existing watcher. */
  function Deleted(w: Watch, fd: nat, ev: Events): (r: Watch)
    ensures r.maxFd == (if fd == w.maxFd then -1 else w.maxFd)
    ensures r.read.fds == (if ev.read then w.read.fds - {fd} else w.read.fds)
    ensures r.write.fds == (if ev.write then w.write.fds - {fd} else w.write.fds)
    ensures w.Valid() ==> r.Valid()
  {
    Watch(if fd == w.maxFd then -1 else w.maxFd,
          if ev.read then TallyDel(w.read, fd) else w.read,
          if ev.write then TallyDel(w.write, fd) else w.write)
  }

  /** Adding the same registration twice is adding it once. */
  lemma AddIdempotent(w: Watch, fd: nat, ev: Events)
    ensures Added(Added(w, fd, ev), fd, ev) == Added(w, fd, ev)
  {
  }

  /** Deleting the same registration twice is deleting it once. */
  lemma DeleteIdempotent(w: Watch, fd: nat, ev: Events)
    ensures Deleted(Deleted(w, fd, ev), fd, ev) == Deleted(w, fd, ev)
  {
  }

  /** Deleting a descriptor that is neither registered nor the bound changes
      nothing. */
  lemma DeleteAbsentUnchanged(w: Watch, fd: nat, ev: Events)
    requires !w.Registered(fd) && fd != w.maxFd
    ensures Deleted(w, fd, ev) == w
  {
  }

  /** Registering a new descriptor and deleting it again restores both sets
      and both counters. */
  lemma AddThenDeleteRestoresSets(w: Watch, fd: nat, ev: Events)
    requires !w.Registered(fd)
    ensures Deleted(Added(w, fd, ev), fd, ev).read == w.read
    ensures Deleted(Added(w, fd, ev), fd, ev).write == w.write
  {
    assert w.read.fds + {fd} - {fd} == w.read.fds;
    assert w.write.fds + {fd} - {fd} == w.write.fds;
  }

  /** The corrected add keeps `max_fd` a bound on the registered descriptors. */
  lemma AddKeepsCover(w: Watch, fd: nat, ev: Events)
    requires w.Covers()
    ensures Added(w, fd, ev).Covers()
  {
    var r := Added(w, fd, ev);
    if r.maxFd != -1 {
      forall x: nat | r.Registered(x)
        ensures x <= r.maxFd
      {
        if x != fd {
          assert w.Registered(x);
        }
      }
    }
  }

  /** Deleting keeps `max_fd` a bound: it either stays or becomes -1. */
  lemma DeleteKeepsCover(w: Watch, fd: nat, ev: Events)
    requires w.Covers()
    ensures Deleted(w, fd, ev).Covers()
  {
    var r := Deleted(w, fd, ev);
    if r.maxFd != -1 {
      forall x: nat | r.Registered(x)
        ensures x <= r.maxFd
      {
        assert w.Registered(x);
      }
    }
  }

  /** The add as written and the intended add differ only right after a
      delete reset `max_fd` to -1: otherwise they agree, so the add as
      written keeps the bound too. */
  lemma AsWrittenAgreesUnlessReset(w: Watch, fd: nat, ev: Events)
    ensures w.maxFd != -1 ==> AddedAsWritten(w, fd, ev) == Added(w, fd, ev)
    ensures w.maxFd != -1 && w.Covers() ==> AddedAsWritten(w, fd, ev).Covers()
  {
    if w.maxFd != -1 && w.Covers() {
      AddKeepsCover(w, fd, ev);
    }
  }

  /** The add as written breaks the bound: register 3 and 7 for reading,
      delete 7 (the bound becomes -1), register 2 (the bound becomes 2) -
      descriptor 3 is still registered above the bound, so it is not polled. */
  lemma AddAsWrittenLosesDescriptor()
    ensures var read := Events(true, false);
            var w := AddedAsWritten(Deleted(AddedAsWritten(AddedAsWritten(FreshWatch, 3, read), 7, read), 7, read), 2, read);
            w.maxFd == 2 && 3 in w.read.fds && !w.Covers()
  {
    var read := Events(true, false);
    var w1 := AddedAsWritten(FreshWatch, 3, read);
    var w2 := AddedAsWritten(w1, 7, read);
    var w3 := Deleted(w2, 7, read);
    assert w3.maxFd == -1 && 3 in w3.read.fds;
    var w4 := AddedAsWritten(w3, 2, read);
    assert w4.maxFd == 2 && 3 in w4.read.fds;
    assert w4.Registered(3);
  }

  /** Whether slot `i` of the loop's ios would be picked by
      `find_max_active_fd`: a non-null, active io with some events. */
  predicate Ready(ios: seq<Option<Io>>, i: int)
  {
    0 <= i < |ios| && ios[i].Some? && ios[i].value.active && ios[i].value.events.Any()
  }

  /** The loop's ios agree with the watcher: every registered descriptor's
      io is ready (what `wioAdd` maintains beside `iowatcherAddEvent`). */
  ghost predicate Consistent(ios: seq<Option<Io>>, w: Watch)
  {
    forall fd: nat :: w.Registered(fd) ==> Ready(ios, fd)
  }

  /** A bound recomputed as the highest ready slot covers every registered
      descriptor of a consistent loop. */
  lemma RecomputedBoundCovers(ios: seq<Option<Io>>, w: Watch, top: int)
    requires Consistent(ios, w)
    requires -1 <= top < |ios|
    requires forall i :: top < i < |ios| ==> !Ready(ios, i)
    ensures w.(maxFd := top).Covers()
  {
    var recomputed := w.(maxFd := top);
    forall fd: nat | recomputed.Registered(fd)
      ensures fd <= top
    {
      assert w.Registered(fd);
      assert Ready(ios, fd);
    }
  }

  /** What a poll that gets past the early exits hands to `select()`:
      `nfds` and the timeout (none for an infinite wait). */
  datatype PollStep =
    | Skip
    | Select(nfds: int, readFds: set<nat>, writeFds: set<nat>, timeout: Option<Timeval>)

  datatype Timeval = Timeval(sec: int, usec: int)

  /** `INFINITE` cast to `int`. */
  const INFINITE: int := -1

  class SelectCtx {
    var maxFd: int
    var readFds: set<nat>
    var writeFds: set<nat>
    var nRead: int
    var nWrite: int

    function View(): Watch
      reads this
    {
      Watch(maxFd, Tally(readFds, nRead), Tally(writeFds, nWrite))
    }

    /** The allocation and initialisation in `iowatcherInit`. */
    constructor ()
      ensures View() == FreshWatch && View().Valid() && View().Covers()
    {
      maxFd := -1;
      readFds := {};
      writeFds := {};
      nRead := 0;
      nWrite := 0;
    }

    /** Store a snapshot back into the fields. */
    method Store(w: Watch)
      modifies this
      ensures View() == w
    {
      maxFd := w.maxFd;
      readFds := w.read.fds;
      nRead := w.read.count;
      writeFds := w.write.fds;
      nWrite := w.write.count;
    }
  }

  class EventLoop {
    var watcher: SelectCtx?
    /** `loop->ios.ptr[0 .. maxsize)`: the io registered for each descriptor. */
    var ios: seq<Option<Io>>

    /** `iowatcherInit`: create a fresh watcher unless one exists. */
    method Init()
      modifies this
      ensures ios == old(ios) && watcher != null
      ensures old(watcher) != null ==> watcher == old(watcher)
      ensures old(watcher) == null ==> fresh(watcher) && watcher.View() == FreshWatch
    {
      if watcher != null {
        return;
      }
      watcher := new SelectCtx();
    }

    /** `iowatcherAddEvent` as written, creating the watcher first when there
        is none.  (`Added` is the intended rule; see `AddKeepsCover`.) */
    method AddEvent(fd: nat, ev: Events)
      modifies this, watcher
      ensures ios == old(ios) && watcher != null
      ensures old(watcher) != null ==> watcher == old(watcher)
      ensures old(watcher) == null ==> fresh(watcher)
      ensures watcher.View() == AddedAsWritten(if old(watcher) == null then FreshWatch else old(watcher.View()), fd, ev)
    {
      if watcher == null {
        Init();
      }
      var w := watcher.View();
      watcher.Store(AddedAsWritten(w, fd, ev));
    }

    /** `iowatcherDelEvent`: nothing happens without a watcher. */
    method DelEvent(fd: nat, ev: Events)
      modifies watcher
      ensures old(watcher) == null ==> unchanged(this)
      ensures watcher != null ==> watcher.View() == Deleted(old(watcher.View()), fd, ev)
    {
      if watcher == null {
        return;
      }
      var w := watcher.View();
      watcher.Store(Deleted(w, fd, ev));
    }

    /** `find_max_active_fd`: the highest ready slot, scanning down from the
        top, or -1 when there is none. */
    method FindMaxActiveFd() returns (top: int)
      ensures -1 <= top < |ios|
      ensures top >= 0 ==> Ready(ios, top)
      ensures forall i :: top < i < |ios| ==> !Ready(ios, i)
    {
      var i := |ios| - 1;
      while i >= 0
        invariant -1 <= i < |ios|
        invariant forall j :: i < j < |ios| ==> !Ready(ios, j)
      {
        var io := ios[i];
        if io.Some? && io.value.active && io.value.events.Any() {
          return i;
        }
        i := i - 1;
      }
      return -1;
    }

    /** The bookkeeping of `iowatcherPollEvents`: skip without a watcher or
        with nothing registered; otherwise recompute a -1 bound and issue
        `select(max_fd + 1, ...)` with the timeout split into seconds and
        microseconds. */
    method PollEvents(timeout: int) returns (step: PollStep)
      modifies watcher
      ensures old(watcher) == null ==> step == Skip
      ensures watcher != null && old(watcher.nRead) == 0 && old(watcher.nWrite) == 0 ==>
                step == Skip && unchanged(watcher)
      ensures watcher != null && step.Select? ==>
                && watcher.readFds == old(watcher.readFds) && watcher.writeFds == old(watcher.writeFds)
                && watcher.nRead == old(watcher.nRead) && watcher.nWrite == old(watcher.nWrite)
                && (old(watcher.maxFd) != -1 ==> watcher.maxFd == old(watcher.maxFd))
                && step.nfds == watcher.maxFd + 1
                && step.readFds == watcher.readFds && step.writeFds == watcher.writeFds
                && (timeout == INFINITE <==> step.timeout.None?)
                && (step.timeout.Some? ==>
                      step.timeout.value.sec * 1000000 + step.timeout.value.usec == timeout * 1000)
      ensures watcher != null && step.Select? && old(watcher.maxFd) == -1 && Consistent(ios, old(watcher.View())) ==>
                watcher.View().Covers()
    {
      if watcher == null {
        return Skip;
      }
      if watcher.nRead == 0 && watcher.nWrite == 0 {
        return Skip;
      }
      var maxFd := watcher.maxFd;
      if maxFd == -1 {
        maxFd := FindMaxActiveFd();
        watcher.maxFd := maxFd;
        if Consistent(ios, old(watcher.View())) {
          RecomputedBoundCovers(ios, old(watcher.View()), maxFd);
        }
      }
      var tp: Option<Timeval> := None;
      if timeout != INFINITE {
        tp := Some(Timeval(CDiv(timeout, 1000), CRem(timeout, 1000) * 1000));
      }
      step := Select(maxFd + 1, watcher.readFds, watcher.writeFds, tp);
    }
  }
}
