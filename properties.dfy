/**
 * What the session lifecycle guarantees, and where it leaks, stated over the
 * `Lifecycle` functions (and so, through their contracts, over the methods of
 * `Viewer.Viewer`).
 */
module Properties {
  import opened Wrappers
  import opened Lifecycle

  // ---------------------------------------------------------------------
  // Temp-file allocation
  // ---------------------------------------------------------------------

  /** A length no file on the disk exceeds. */
  ghost function MaxLen(names: set<string>): (m: nat)
    ensures forall n :: n in names ==> |n| <= m
    decreases names
  {
    if names == {} then 0
    else
      var n :| n in names;
      var rest := MaxLen(names - {n});
      if |n| < rest then rest else |n|
  }

  /** Whatever the disk holds, some suffix lets `ioutil.TempFile` succeed: its failure branch is never forced. */
  lemma TempFileCanSucceed(disk: set<string>)
    ensures exists suffix :: TempName(suffix) !in disk
  {
    var suffix := seq(MaxLen(disk) + 1, _ => '0');
    assert |TempName(suffix)| > MaxLen(disk);
  }

  /** `Init` starts with no cache, no pager, no load request, an uncancelled scope and the disk as it was. */
  lemma InitIsEmpty(disk: set<string>, dock: Dock)
    ensures var s := Init(disk, dock);
      && s.cache.None? && s.ov.None? && !s.cancelled && s.fatal.None?
      && Loads(s.trace) == [] && s.disk == disk && s.dock == dock
      && LiveFiles(s) == {} && AtMostOneLive(s)
  {
  }

  /**
   * `newDocument` first replaces `v.cache`: by a fresh "dlog_" file that was
   * not on the disk before, or, when allocation fails, by nil, with an error,
   * no document, the disk unchanged and no load or open attempted.
   */
  lemma CreateAllocatesFreshFile(env: Env, s: Session, io: CreateIo)
    ensures var c := CreateDocument(env, s, io);
      && (c.after.cache.Some? <==> io.dirWritable && TempName(io.suffix) !in s.disk)
      && (c.after.cache.Some? ==>
            var name := c.after.cache.value.name;
            && TempPrefix <= name && name !in s.disk && c.after.cache.value.open
            && c.after.disk == s.disk + {name} && c.after.created == s.created + {name})
      && (c.after.cache.None? ==>
            && c.doc == Failure(Wrap("failed to create temp file", Cause(TempFileFault)))
            && c.after.disk == s.disk
            && c.after.trace == s.trace + [TempFailed])
  {
  }

  // ---------------------------------------------------------------------
  // Load requests: the configured tail versus the whole log
  // ---------------------------------------------------------------------

  lemma {:induction false} LoadsAppend(a: seq<Event>, b: seq<Event>)
    ensures Loads(a + b) == Loads(a) + Loads(b)
  {
    if a == [] {
      assert a + b == b;
    } else {
      var head := if a[0].LoadRequested? then [a[0].req] else [];
      assert (a + b)[0] == a[0];
      assert (a + b)[1..] == a[1..] + b;
      LoadsAppend(a[1..], b);
      calc {
        Loads(a + b);
        head + Loads(a[1..] + b);
        head + (Loads(a[1..]) + Loads(b));
        (head + Loads(a[1..])) + Loads(b);
        Loads(a) + Loads(b);
      }
    }
  }

  /** Appending events that are not load requests adds no load request. */
  lemma LoadsAppendQuiet(a: seq<Event>, b: seq<Event>)
    requires forall i :: 0 <= i < |b| ==> !b[i].LoadRequested?
    ensures Loads(a + b) == Loads(a)
  {
    LoadsAppend(a, b);
    LoadsQuiet(b);
  }

  lemma {:induction false} LoadsQuiet(b: seq<Event>)
    requires forall i :: 0 <= i < |b| ==> !b[i].LoadRequested?
    ensures Loads(b) == []
  {
    if b != [] {
      assert forall i :: 0 <= i < |b[1..]| ==> !b[1..][i].LoadRequested? by {
        forall i | 0 <= i < |b[1..]| ensures !b[1..][i].LoadRequested? {
          assert b[1..][i] == b[i + 1];
        }
      }
      LoadsQuiet(b[1..]);
    }
  }

  /**
   * A create cycle asks the dock for exactly one load, of `tail` lines from
   * the current container into the new file, when the file could be
   * created, and for none otherwise.
   */
  lemma CycleLoads(env: Env, s: Session, io: CreateIo, tail: int)
    ensures var c := CreateCycle(env, s, io, tail);
      Loads(c.after.trace) ==
        if c.after.cache.Some?
        then Loads(s.trace) + [LoadRequest(s.dock.current, TempName(io.suffix), tail)]
        else Loads(s.trace)
  {
    var c := CreateCycle(env, s, io, tail);
    var name := TempName(io.suffix);
    if !io.dirWritable || name in s.disk {
      LoadsAppendQuiet(s.trace, [TempFailed]);
    } else {
      var load := LoadRequested(LoadRequest(s.dock.current, name, tail));
      assert c.after.trace == s.trace + [TempCreated(name)] + [load] + [DocOpened(name, io.openOk)];
      LoadsAppendQuiet(s.trace, [TempCreated(name)]);
      LoadsAppend(s.trace + [TempCreated(name)], [load]);
      assert Loads([load]) == [load.req];
      LoadsAppendQuiet(s.trace + [TempCreated(name)] + [load], [DocOpened(name, io.openOk)]);
    }
  }

  /** Stopping the dock, closing and removing the cache request no load. */
  lemma StopLoadsNothing(s: Session)
    requires s.cache.Some?
    ensures Loads(Stop(s).trace) == Loads(s.trace)
  {
    var c := s.cache.value;
    assert Stop(s).trace == s.trace + [DockStopped, CacheClosed(c.name, c.open), FileRemoved(c.name, c.name in s.disk)];
    LoadsAppendQuiet(s.trace, [DockStopped, CacheClosed(c.name, c.open), FileRemoved(c.name, c.name in s.disk)]);
  }

  /** `newDocument` (used by `Start` and `NewDocument`) requests exactly the configured tail. */
  lemma CreateDocumentRequestsConfiguredTail(env: Env, s: Session, io: CreateIo)
    requires io.dirWritable && TempName(io.suffix) !in s.disk
    ensures Loads(CreateDocument(env, s, io).after.trace)
         == Loads(s.trace) + [LoadRequest(s.dock.current, TempName(io.suffix), env.tail)]
  {
    CycleLoads(env, s, io, env.tail);
  }

  /**
   * A navigation requests the configured tail from the container it moved
   * to. The new temp file may reuse the name of the cache just removed.
   */
  lemma NavigateRequestsConfiguredTail(env: Env, s: Session, to: Container, io: CreateIo)
    requires Started(s)
    requires io.dirWritable && TempName(io.suffix) !in s.disk - {s.cache.value.name}
    ensures Loads(Navigate(env, s, to, io).trace)
         == Loads(s.trace) + [LoadRequest(to, TempName(io.suffix), env.tail)]
  {
    var s1 := Stop(s);
    var s2 := s1.(dock := s1.dock.(current := to), trace := s1.trace + [DockMoved(to)]);
    StopLoadsNothing(s);
    LoadsAppendQuiet(s1.trace, [DockMoved(to)]);
    CycleLoads(env, s2, io, env.tail);
  }

  /** `PrevContainer` requests exactly the configured tail from the previous container. */
  lemma PrevContainerRequestsConfiguredTail(env: Env, s: Session, io: CreateIo)
    requires Started(s)
    requires io.dirWritable && TempName(io.suffix) !in s.disk - {s.cache.value.name}
    ensures Loads(PrevContainer(env, s, io).trace)
         == Loads(s.trace) + [LoadRequest(env.prev(s.dock.current), TempName(io.suffix), env.tail)]
  {
    NavigateRequestsConfiguredTail(env, s, env.prev(s.dock.current), io);
  }

  /** `NextContainer` requests exactly the configured tail from the next container. */
  lemma NextContainerRequestsConfiguredTail(env: Env, s: Session, io: CreateIo)
    requires Started(s)
    requires io.dirWritable && TempName(io.suffix) !in s.disk - {s.cache.value.name}
    ensures Loads(NextContainer(env, s, io).trace)
         == Loads(s.trace) + [LoadRequest(env.next(s.dock.current), TempName(io.suffix), env.tail)]
  {
    NavigateRequestsConfiguredTail(env, s, env.next(s.dock.current), io);
  }

  /** `retrieveAllLogs` requests tail 0, the whole log, whatever the configured tail. */
  lemma RetrieveAllLogsRequestsWholeLog(env: Env, s: Session, io: CreateIo)
    requires Started(s)
    requires io.dirWritable && TempName(io.suffix) !in s.disk - {s.cache.value.name}
    ensures Loads(RetrieveAllLogs(env, s, io).trace)
         == Loads(s.trace) + [LoadRequest(s.dock.current, TempName(io.suffix), 0)]
  {
    StopLoadsNothing(s);
    CycleLoads(env, Stop(s), io, 0);
  }

  // ---------------------------------------------------------------------
  // Documents, captions and the leak on a failed open
  // ---------------------------------------------------------------------

  /** A successful `NewDocument` shows the new cache file captioned with the current container. */
  lemma NewDocumentShowsCurrentContainer(env: Env, s: Session, io: CreateIo)
    requires s.ov.Some?
    ensures var o := NewDocument(env, s, io);
      o.err.None? ==> Showing(env, o.after) && o.after.cache.value.name == TempName(io.suffix)
  {
  }

  /** `NewDocument` replaces the pager's document only on success; on failure the pager is untouched. */
  lemma NewDocumentReplacesOnlyOnSuccess(env: Env, s: Session, io: CreateIo)
    requires s.ov.Some?
    ensures var o := NewDocument(env, s, io);
      && o.after.ov.Some?
      && (o.err.Some? <==> !(io.dirWritable && TempName(io.suffix) !in s.disk && io.openOk))
      && (o.err.Some? ==> o.after.ov == s.ov)
      && (o.err.None? ==> o.after.ov.value == s.ov.value.(doc := Document(TempName(io.suffix), env.name(s.dock.current))))
  {
  }

  /**
   * When the pager cannot open the new file, `newDocument` returns an error
   * but `v.cache` already names the new file, which stays on the disk.
   */
  lemma OpenFailureLeavesTempFile(env: Env, s: Session, io: CreateIo)
    requires io.dirWritable && TempName(io.suffix) !in s.disk && !io.openOk
    ensures var c := CreateDocument(env, s, io);
      && c.doc == Failure(Wrap("failed to open document", Cause(OpenFault)))
      && c.after.cache == Some(Cache(TempName(io.suffix), true))
      && TempName(io.suffix) in LiveFiles(c.after) - s.disk
  {
  }

  /**
   * `NewDocument` called on a session whose cache file is still on the disk
   * (its callers must `Stop` first) leaves two session files on the disk.
   */
  lemma NewDocumentWithoutStopLeaks(env: Env, s: Session, io: CreateIo)
    requires s.ov.Some? && s.cache.Some? && s.cache.value.name in LiveFiles(s)
    requires io.dirWritable && TempName(io.suffix) !in s.disk
    ensures var r := NewDocument(env, s, io).after;
      && {s.cache.value.name, TempName(io.suffix)} <= LiveFiles(r)
      && s.cache.value.name != TempName(io.suffix)
      && !AtMostOneLive(r)
  {
    var r := NewDocument(env, s, io).after;
    assert s.cache.value.name in LiveFiles(r) && s.cache.value.name !in CacheNames(r);
  }

  // ---------------------------------------------------------------------
  // Retiring: Stop, navigation, fetch-all
  // ---------------------------------------------------------------------

  /**
   * `Stop` always completes: afterwards no session file is on the disk and
   * the cache is closed; the close and the remove report failure (logged
   * only) exactly when the file was already closed or already gone.
   */
  lemma StopRetiresCache(s: Session)
    requires s.cache.Some? && AtMostOneLive(s)
    ensures var r := Stop(s);
      && LiveFiles(r) == {} && !r.dock.streaming
      && r.cache == Some(s.cache.value.(open := false))
      && r.trace[|s.trace|..] == [DockStopped, CacheClosed(s.cache.value.name, s.cache.value.open),
                                  FileRemoved(s.cache.value.name, s.cache.value.name in s.disk)]
  {
    var r := Stop(s);
    assert r.trace == s.trace + [DockStopped, CacheClosed(s.cache.value.name, s.cache.value.open),
                                 FileRemoved(s.cache.value.name, s.cache.value.name in s.disk)];
  }

  /**
   * In `t` the dock is stopped, then cache `retired` is closed, then its file
   * removed, and every temp-file allocation in `t` comes after that removal.
   */
  ghost predicate RetiresBeforeAllocating(t: seq<Event>, retired: string)
  {
    exists h, i, j ::
      && 0 <= h < i < j < |t|
      && t[h] == DockStopped
      && t[i].CacheClosed? && t[i].name == retired
      && t[j].FileRemoved? && t[j].name == retired
      && forall k :: 0 <= k < |t| && t[k].TempCreated? ==> j < k
  }

  /** In `t` the dock moves to `to` after cache `retired` is removed and before any temp-file allocation. */
  ghost predicate MovesBeforeAllocating(t: seq<Event>, retired: string, to: Container)
  {
    exists j, m ::
      && 0 <= j < m < |t|
      && t[j].FileRemoved? && t[j].name == retired
      && t[m] == DockMoved(to)
      && forall k :: 0 <= k < |t| && t[k].TempCreated? ==> m < k
  }

  /** The calls a create cycle adds to the trace: a failed allocation alone, or allocation, load and open. */
  lemma CycleEvents(env: Env, s: Session, io: CreateIo, tail: int)
    ensures var name := TempName(io.suffix);
      CreateCycle(env, s, io, tail).after.trace[|s.trace|..] ==
        if !io.dirWritable || name in s.disk then [TempFailed]
        else [TempCreated(name), LoadRequested(LoadRequest(s.dock.current, name, tail)), DocOpened(name, io.openOk)]
  {
  }

  /**
   * The events of a navigation: Stop's three calls, the move, then the
   * create cycle's calls (allocation first).
   */
  lemma NavigateEvents(env: Env, s: Session, to: Container, io: CreateIo)
    requires Started(s)
    ensures var t := Navigate(env, s, to, io).trace[|s.trace|..];
      && |t| >= 5
      && t[0] == DockStopped
      && t[1] == CacheClosed(s.cache.value.name, s.cache.value.open)
      && t[2] == FileRemoved(s.cache.value.name, s.cache.value.name in s.disk)
      && t[3] == DockMoved(to)
      && forall k :: 0 <= k < |t| && t[k].TempCreated? ==> k == 4
  {
    var c := s.cache.value;
    var stop := [DockStopped, CacheClosed(c.name, c.open), FileRemoved(c.name, c.name in s.disk), DockMoved(to)];
    var s1 := Stop(s);
    var s2 := s1.(dock := s1.dock.(current := to), trace := s1.trace + [DockMoved(to)]);
    var rest := CreateCycle(env, s2, io, env.tail).after.trace[|s2.trace|..];
    assert Navigate(env, s, to, io).trace[|s.trace|..] == stop + rest by {
      assert s2.trace == s.trace + stop;
      NewDocumentTrace(env, s2, io);
    }
    CycleEvents(env, s2, io, env.tail);
    AllocationAfterPrefix(stop, rest);
    var u := stop + rest;
    assert u[0] == DockStopped && u[1] == stop[1] && u[2] == stop[2] && u[3] == DockMoved(to);
  }

  /** After a prefix with no allocation, a cycle's calls put the only allocation right after the prefix. */
  lemma AllocationAfterPrefix(prefix: seq<Event>, rest: seq<Event>)
    requires forall k :: 0 <= k < |prefix| ==> !prefix[k].TempCreated?
    requires rest == [TempFailed] || (|rest| == 3 && rest[0].TempCreated? && !rest[1].TempCreated? && !rest[2].TempCreated?)
    ensures var t := prefix + rest;
      && |t| > |prefix| && t[..|prefix|] == prefix
      && forall k :: 0 <= k < |t| && t[k].TempCreated? ==> k == |prefix|
  {
    var t := prefix + rest;
    forall k | 0 <= k < |t| ensures t[k].TempCreated? ==> k == |prefix| {
      if k < |prefix| {
        assert t[k] == prefix[k];
      } else {
        assert t[k] == rest[k - |prefix|];
      }
    }
  }

  /** `NewDocument` adds to the trace exactly the calls of its create cycle. */
  lemma NewDocumentTrace(env: Env, s: Session, io: CreateIo)
    requires s.ov.Some?
    ensures NewDocument(env, s, io).after.trace == CreateCycle(env, s, io, env.tail).after.trace
  {
  }

  /**
   * `PrevContainer` and `NextContainer` call `Stop`, then move the dock,
   * then create: the old cache is closed and removed before the new one is
   * allocated.
   */
  lemma NavigationRetiresBeforeAllocating(env: Env, s: Session, to: Container, io: CreateIo)
    requires Started(s)
    ensures var t := Navigate(env, s, to, io).trace[|s.trace|..];
      RetiresBeforeAllocating(t, s.cache.value.name) && MovesBeforeAllocating(t, s.cache.value.name, to)
  {
    NavigateEvents(env, s, to, io);
    var t := Navigate(env, s, to, io).trace[|s.trace|..];
    var name := s.cache.value.name;
    assert 0 <= 0 < 1 < 2 < |t| && t[0] == DockStopped
      && t[1].CacheClosed? && t[1].name == name && t[2].FileRemoved? && t[2].name == name
      && forall k :: 0 <= k < |t| && t[k].TempCreated? ==> 2 < k;
    assert 0 <= 2 < 3 < |t| && t[2].FileRemoved? && t[2].name == name && t[3] == DockMoved(to)
      && forall k :: 0 <= k < |t| && t[k].TempCreated? ==> 3 < k;
  }

  /**
   * The events of `retrieveAllLogs`: Stop's three calls, then the create
   * cycle's calls, whose allocation attempt, failed or not, comes at index 3.
   */
  lemma RetrieveAllLogsEvents(env: Env, s: Session, io: CreateIo)
    requires Started(s)
    ensures var t := RetrieveAllLogs(env, s, io).trace[|s.trace|..];
      && |t| >= 4
      && t[0] == DockStopped
      && t[1] == CacheClosed(s.cache.value.name, s.cache.value.open)
      && t[2] == FileRemoved(s.cache.value.name, s.cache.value.name in s.disk)
      && forall k :: 0 <= k < |t| && (t[k].TempCreated? || t[k].TempFailed?) ==> k == 3
  {
    var c := s.cache.value;
    var stop := [DockStopped, CacheClosed(c.name, c.open), FileRemoved(c.name, c.name in s.disk)];
    var s1 := Stop(s);
    var rest := CreateCycle(env, s1, io, 0).after.trace[|s1.trace|..];
    var t := RetrieveAllLogs(env, s, io).trace[|s.trace|..];
    assert t == stop + rest by {
      assert s1.trace == s.trace + stop;
      assert RetrieveAllLogs(env, s, io).trace == CreateCycle(env, s1, io, 0).after.trace;
    }
    CycleEvents(env, s1, io, 0);
    forall k | 0 <= k < |t| ensures (t[k].TempCreated? || t[k].TempFailed?) ==> k == 3 {
      if k < 3 {
        assert t[k] == stop[k];
      } else {
        assert t[k] == rest[k - 3];
      }
    }
  }

  /** `retrieveAllLogs` calls `Stop` before it allocates the new cache. */
  lemma RetrieveAllLogsRetiresBeforeAllocating(env: Env, s: Session, io: CreateIo)
    requires Started(s)
    ensures RetiresBeforeAllocating(RetrieveAllLogs(env, s, io).trace[|s.trace|..], s.cache.value.name)
  {
    var c := s.cache.value;
    var stop := [DockStopped, CacheClosed(c.name, c.open), FileRemoved(c.name, c.name in s.disk)];
    var s1 := Stop(s);
    var rest := CreateCycle(env, s1, io, 0).after.trace[|s1.trace|..];
    var t := RetrieveAllLogs(env, s, io).trace[|s.trace|..];
    assert t == stop + rest by {
      assert s1.trace == s.trace + stop;
      assert RetrieveAllLogs(env, s, io).trace == CreateCycle(env, s1, io, 0).after.trace;
    }
    CycleEvents(env, s1, io, 0);
    AllocationAfterPrefix(stop, rest);
    var u := stop + rest;
    assert 0 <= 0 < 1 < 2 < |u| && u[0] == DockStopped
      && u[1].CacheClosed? && u[1].name == c.name && u[2].FileRemoved? && u[2].name == c.name
      && forall k :: 0 <= k < |u| && u[k].TempCreated? ==> 2 < k;
  }

  /**
   * A navigation keeps at most one session file on the disk. When it
   * succeeds, exactly one exists, the new cache, and the pager shows it with
   * the new container's caption; when creation fails the session is fatal.
   */
  lemma NavigateKeepsOneLiveFile(env: Env, s: Session, to: Container, io: CreateIo)
    requires Started(s) && AtMostOneLive(s) && s.fatal.None?
    ensures var r := Navigate(env, s, to, io);
      && AtMostOneLive(r)
      && r.dock.current == to
      && (r.fatal.None? <==> io.dirWritable && TempName(io.suffix) !in s.disk - {s.cache.value.name} && io.openOk)
      && (r.fatal.None? ==> Showing(env, r) && LiveFiles(r) == {TempName(io.suffix)}
                            && r.ov.value.doc.caption == env.name(to))
  {
    StopRetiresCache(s);
  }

  /** The same for `retrieveAllLogs`, which keeps the dock on its container. */
  lemma RetrieveAllLogsKeepsOneLiveFile(env: Env, s: Session, io: CreateIo)
    requires Started(s) && AtMostOneLive(s) && s.fatal.None?
    ensures var r := RetrieveAllLogs(env, s, io);
      && AtMostOneLive(r)
      && r.dock.current == s.dock.current
      && (r.fatal.None? <==> io.dirWritable && TempName(io.suffix) !in s.disk - {s.cache.value.name} && io.openOk)
      && (r.fatal.None? ==> Showing(env, r) && LiveFiles(r) == {TempName(io.suffix)}
                            && r.ov.value.doc.caption == env.name(s.dock.current))
  {
    StopRetiresCache(s);
  }

  /**
   * A navigation whose open fails ends the process with the wrapped error,
   * and the new temp file stays on the disk: no `Shutdown` runs to remove it.
   */
  lemma NavigationOpenFailureIsFatalAndLeaks(env: Env, s: Session, to: Container, io: CreateIo)
    requires Started(s) && s.fatal.None?
    requires io.dirWritable && TempName(io.suffix) !in s.disk - {s.cache.value.name} && !io.openOk
    ensures var r := Navigate(env, s, to, io);
      && r.fatal == Some(Wrap("failed to create document", Wrap("failed to open document", Cause(OpenFault))))
      && TempName(io.suffix) in LiveFiles(r)
  {
  }

  /** `retrieveAllLogs` passes the raw error to `log.Fatal`, without the wrapping `newDocument` adds. */
  lemma RetrieveAllLogsFatalErrorIsUnwrapped(env: Env, s: Session, io: CreateIo)
    requires Started(s) && s.fatal.None?
    ensures var r := RetrieveAllLogs(env, s, io);
      && (!(io.dirWritable && TempName(io.suffix) !in s.disk - {s.cache.value.name}) ==>
            r.fatal == Some(Cause(TempFileFault)) && r.cache.None? && LiveFiles(r) == LiveFiles(Stop(s)))
      && ((io.dirWritable && TempName(io.suffix) !in s.disk - {s.cache.value.name} && !io.openOk)
            ==> r.fatal == Some(Cause(OpenFault)) && TempName(io.suffix) in LiveFiles(r))
  {
  }

  // ---------------------------------------------------------------------
  // Start
  // ---------------------------------------------------------------------

  /** When the first document cannot be created, `Start` returns before `v.ov` is assigned. */
  lemma StartCreateFailureLeavesPagerUnset(env: Env, s: Session, io: StartIo)
    requires CreateDocument(env, s, io.create).doc.Failure?
    ensures var o := Start(env, s, io);
      && o.after.ov == s.ov
      && o.err == Some(Wrap("failed to create document", CreateDocument(env, s, io.create).doc.error))
      && Loads(o.after.trace) == Loads(s.trace) + (if o.after.cache.Some? then [LoadRequest(s.dock.current, TempName(io.create.suffix), env.tail)] else [])
  {
    CycleLoads(env, s, io.create, env.tail);
  }

  /**
   * `Start` stops at the first key binding the pager refuses: the bindings
   * before it are registered, it and the later ones are not, and the error
   * names that binding's stage (the ctrl+y stage reuses the `s` message).
   */
  lemma StartStopsAtFirstRefusedBinding(env: Env, s: Session, io: StartIo, k: nat)
    requires CreateDocument(env, s, io.create).doc.Success? && io.pagerOk
    requires k < |StartBindings|
    requires forall j :: 0 <= j < k ==> io.bindOk(StartBindings[j].action)
    requires !io.bindOk(StartBindings[k].action)
    ensures var o := Start(env, s, io);
      && o.after.ov.Some? && o.after.ov.value.bindings == StartBindings[..k]
      && o.err == Some(Wrap(if k == 0 then "failed to bind left key"
                            else if k == 1 then "failed to bind right key"
                            else "failed to bind s key", Cause(BindFault)))
  {
    assert StartBindings[0].action == PrevKey && StartBindings[1].action == NextKey;
    assert StartBindings[2].action == ReportKey && StartBindings[3].action == AllLogsKey;
    if k == 0 {
    } else if k == 1 {
      assert io.bindOk(PrevKey);
    } else if k == 2 {
      assert io.bindOk(PrevKey) && io.bindOk(NextKey);
    } else {
      assert io.bindOk(PrevKey) && io.bindOk(NextKey) && io.bindOk(ReportKey);
    }
  }

  /**
   * When the pager cannot be built, `Start` returns the wrapped pager error
   * with `v.ov` nil, and the first temp file stays on the disk with no
   * pager to shut down.
   */
  lemma StartPagerFailureLeavesTempFile(env: Env, s: Session, io: StartIo)
    requires CreateDocument(env, s, io.create).doc.Success? && !io.pagerOk
    ensures var o := Start(env, s, io);
      && o.err == Some(Wrap("failed to create oviewer", Cause(PagerFault)))
      && o.after.ov.None? && !Started(o.after)
      && TempName(io.create.suffix) in LiveFiles(o.after) - s.disk
      && o.after.cache == Some(Cache(TempName(io.create.suffix), true))
  {
  }

  /**
   * When the run loop fails, `Start` returns the wrapped run error after all
   * four key handlers were registered on the pager showing the first document.
   */
  lemma StartRunFailureKeepsBindings(env: Env, s: Session, io: StartIo)
    requires CreateDocument(env, s, io.create).doc.Success? && io.pagerOk
    requires forall j :: 0 <= j < |StartBindings| ==> io.bindOk(StartBindings[j].action)
    requires !io.runOk
    ensures var o := Start(env, s, io);
      && o.err == Some(Wrap("failed to run oviewer", Cause(RunFault)))
      && o.after.ov.Some? && o.after.ov.value.bindings == StartBindings
      && Showing(env, o.after)
  {
    assert StartBindings[0].action == PrevKey && StartBindings[1].action == NextKey;
    assert StartBindings[2].action == ReportKey && StartBindings[3].action == AllLogsKey;
    assert io.bindOk(PrevKey) && io.bindOk(NextKey) && io.bindOk(ReportKey) && io.bindOk(AllLogsKey);
  }

  /**
   * A refused ctrl+y binding is reported with the message of a refused `s`
   * binding: the two failures cannot be told apart by the error returned.
   */
  lemma AllLogsBindingFailureReadsAsReportKey(env: Env, s: Session, io1: StartIo, io2: StartIo)
    requires io1.create == io2.create && CreateDocument(env, s, io1.create).doc.Success?
    requires io1.pagerOk && io2.pagerOk
    requires io1.bindOk(PrevKey) && io1.bindOk(NextKey) && !io1.bindOk(ReportKey)
    requires io2.bindOk(PrevKey) && io2.bindOk(NextKey) && io2.bindOk(ReportKey) && !io2.bindOk(AllLogsKey)
    ensures Start(env, s, io1).err == Start(env, s, io2).err == Some(Wrap("failed to bind s key", Cause(BindFault)))
  {
  }

  /**
   * A successful `Start` from a fresh session shows the first document,
   * captioned with the current container, having requested the configured
   * tail; exactly one session file exists.
   */
  lemma StartShowsFirstDocument(env: Env, disk: set<string>, dock: Dock, io: StartIo)
    requires Start(env, Init(disk, dock), io).err.None?
    ensures var r := Start(env, Init(disk, dock), io).after;
      && r.fatal.None? && Showing(env, r) && AtMostOneLive(r) && LiveFiles(r) == {TempName(io.create.suffix)}
      && r.ov.value.doc.caption == env.name(dock.current)
      && Loads(r.trace) == [LoadRequest(dock.current, TempName(io.create.suffix), env.tail)]
  {
    CycleLoads(env, Init(disk, dock), io.create, env.tail);
  }

  // ---------------------------------------------------------------------
  // Shutdown
  // ---------------------------------------------------------------------

  /** `Shutdown` closes the pager, cancels the scope and removes the cache file, leaving no session file. */
  lemma ShutdownRemovesLastFile(s: Session)
    requires Started(s) && AtMostOneLive(s)
    ensures var r := Shutdown(s);
      && r.ov.value.closed && r.cancelled && LiveFiles(r) == {}
      && r.disk == s.disk - {s.cache.value.name}
  {
  }

  /**
   * A second `Shutdown` removes nothing: the disk is unchanged and the failed
   * remove of the same name is only logged.
   */
  lemma ShutdownTwiceRemovesNothing(s: Session)
    requires Started(s)
    ensures var r1 := Shutdown(s); var r2 := Shutdown(r1);
      && r2.disk == r1.disk && r2.cancelled && r2.ov.value.closed
      && r2.trace == r1.trace + [PagerClosed, ScopeCancelled, FileRemoved(s.cache.value.name, false)]
  {
  }

  // ---------------------------------------------------------------------
  // Whole sessions
  // ---------------------------------------------------------------------

  /** A key press the run loop dispatches, with the answers its create cycle gets. */
  datatype Action = Prev(io: CreateIo) | Next(io: CreateIo) | AllLogs(io: CreateIo)

  /** The handler bound to a key. A handler either leaves the new document showing or ends the process. */
  function Handle(env: Env, s: Session, a: Action): (r: Session)
    requires Started(s)
    ensures r.fatal.None? ==> Showing(env, r)
  {
    match a
    case Prev(io) => PrevContainer(env, s, io)
    case Next(io) => NextContainer(env, s, io)
    case AllLogs(io) => RetrieveAllLogs(env, s, io)
  }

  /** The session after the run loop dispatches `acts`; nothing runs after a fatal error. */
  function Replay(env: Env, s: Session, acts: seq<Action>): (r: Session)
    requires s.fatal.None? ==> Started(s)
    ensures r.fatal.None? ==> Started(r)
    decreases |acts|
  {
    if acts == [] || s.fatal.Some? then s
    else Replay(env, Handle(env, s, acts[0]), acts[1..])
  }

  lemma HandleKeepsOneLiveFile(env: Env, s: Session, a: Action)
    requires Started(s) && AtMostOneLive(s) && s.fatal.None?
    ensures AtMostOneLive(Handle(env, s, a))
  {
    match a
    case Prev(io) => NavigateKeepsOneLiveFile(env, s, env.prev(s.dock.current), io);
    case Next(io) => NavigateKeepsOneLiveFile(env, s, env.next(s.dock.current), io);
    case AllLogs(io) => RetrieveAllLogsKeepsOneLiveFile(env, s, io);
  }

  /**
   * However many navigation and fetch-all keys are pressed, at most one
   * session file is on the disk, and unless the process has ended the pager
   * shows it.
   */
  lemma {:induction false} ReplayKeepsOneLiveFile(env: Env, s: Session, acts: seq<Action>)
    requires AtMostOneLive(s) && (s.fatal.None? ==> Showing(env, s))
    ensures var r := Replay(env, s, acts);
      AtMostOneLive(r) && (r.fatal.None? ==> Showing(env, r))
    decreases |acts|
  {
    if acts != [] && s.fatal.None? {
      HandleKeepsOneLiveFile(env, s, acts[0]);
      ReplayKeepsOneLiveFile(env, Handle(env, s, acts[0]), acts[1..]);
    }
  }

  /**
   * A session that starts, handles any keys and shuts down leaves no temp
   * file of its own on the disk, unless a handler ended the process.
   */
  lemma SessionLeavesNoTempFiles(env: Env, disk: set<string>, dock: Dock, io: StartIo, acts: seq<Action>)
    requires Start(env, Init(disk, dock), io).err.None?
    ensures var r := Replay(env, Start(env, Init(disk, dock), io).after, acts);
      r.fatal.None? ==> LiveFiles(Shutdown(r)) == {}
  {
    var s := Start(env, Init(disk, dock), io).after;
    StartShowsFirstDocument(env, disk, dock, io);
    ReplayKeepsOneLiveFile(env, s, acts);
    var r := Replay(env, s, acts);
    if r.fatal.None? {
      ShutdownRemovesLastFile(r);
    }
  }

  /**
   * The exception: a navigation whose open fails right after a successful
   * start ends the process with one session file still on the disk.
   */
  lemma FatalSessionLeavesTempFile(env: Env, disk: set<string>, dock: Dock, io: StartIo, nav: CreateIo)
    requires Start(env, Init(disk, dock), io).err.None?
    requires nav.dirWritable && TempName(nav.suffix) !in disk && !nav.openOk
    ensures var r := Replay(env, Start(env, Init(disk, dock), io).after, [Prev(nav)]);
      r.fatal.Some? && LiveFiles(r) == {TempName(nav.suffix)}
  {
    var s := Start(env, Init(disk, dock), io).after;
    StartShowsFirstDocument(env, disk, dock, io);
    assert s.disk - {s.cache.value.name} == disk;
    NavigateKeepsOneLiveFile(env, s, env.prev(s.dock.current), nav);
    NavigationOpenFailureIsFatalAndLeaks(env, s, env.prev(s.dock.current), nav);
    assert [Prev(nav)][1..] == [];
    assert Replay(env, s, [Prev(nav)]) == Replay(env, Handle(env, s, Prev(nav)), []);
  }
}
