/**
 * The `Viewer` of internal/viewer/viewer.go as a class whose methods update
 * its fields in the order the Go code does. Each method is proved to leave
 * the session its `Lifecycle` function describes; the answers of the
 * operating system and the pager are parameters (`CreateIo`, `StartIo`).
 */
module Viewer {
  import opened Wrappers
  import opened Lifecycle

  class Viewer {
    /** `v.cfg.Tail` and the dock's container list. */
    const env: Env
    /** The files that exist in the temp directory. */
    var disk: set<string>
    /** `v.cache`; None once `ioutil.TempFile` has returned nil. */
    var cache: Option<Cache>
    /** `v.ov`. */
    var ov: Option<Pager>
    /** The state of `v.dock`. */
    var dock: Dock
    /** Whether `v.cancel()` has been called. */
    var cancelled: bool
    /** The error given to `log.Fatal`, after which the process has exited. */
    var fatal: Option<Error>
    /** The collaborator calls made so far. */
    ghost var trace: seq<Event>
    /** Every temp-file name this viewer has created. */
    ghost var created: set<string>

    ghost function State(): Session
      reads this
    {
      Session(disk, cache, ov, dock, cancelled, fatal, trace, created)
    }

    /** `Init`. */
    constructor Init(env: Env, disk: set<string>, dock: Dock)
      ensures this.env == env
      ensures State() == Lifecycle.Init(disk, dock)
    {
      this.env := env;
      this.disk := disk;
      cache := None;
      ov := None;
      this.dock := dock;
      cancelled := false;
      fatal := None;
      trace := [];
      created := {};
    }

    /** `os.Remove(name)`: fails, and the caller only logs it, when the file is already gone. */
    method Remove(name: string) returns (ok: bool)
      modifies this
      ensures ok == (name in old(disk))
      ensures State() == old(State()).(disk := old(disk) - {name}, trace := old(trace) + [FileRemoved(name, ok)])
    {
      ok := name in disk;
      disk := disk - {name};
      trace := trace + [FileRemoved(name, ok)];
    }

    /** `v.dock.Load(v.ctx, v.cache, tail)`. */
    method Load(tail: int)
      requires cache.Some?
      modifies this
      ensures State() == old(State()).(dock := old(dock).(streaming := true),
        trace := old(trace) + [LoadRequested(LoadRequest(old(dock).current, old(cache).value.name, tail))])
    {
      dock := dock.(streaming := true);
      trace := trace + [LoadRequested(LoadRequest(dock.current, cache.value.name, tail))];
    }

    /**
     * `v.cache, err = ioutil.TempFile(os.TempDir(), "dlog_")`: the new file
     * is created exclusively, so the call fails when the directory refuses it
     * or the name is taken; on failure `v.cache` becomes nil.
     */
    method TempFile(io: CreateIo) returns (ok: bool)
      modifies this
      ensures ok == (io.dirWritable && TempName(io.suffix) !in old(disk))
      ensures !ok ==> State() == old(State()).(cache := None, trace := old(trace) + [TempFailed])
      ensures ok ==> State() == old(State()).(disk := old(disk) + {TempName(io.suffix)},
        created := old(created) + {TempName(io.suffix)},
        cache := Some(Cache(TempName(io.suffix), true)),
        trace := old(trace) + [TempCreated(TempName(io.suffix))])
    {
      var name := TempName(io.suffix);
      if !io.dirWritable || name in disk {
        cache := None;
        trace := trace + [TempFailed];
        return false;
      }
      disk := disk + {name};
      created := created + {name};
      cache := Some(Cache(name, true));
      trace := trace + [TempCreated(name)];
      return true;
    }

    /** `oviewer.OpenDocument(v.cache.Name())` followed by setting the caption to `v.dock.Name()`. */
    method OpenDocument(io: CreateIo) returns (doc: Result<Document, Fault>)
      requires cache.Some?
      modifies this
      ensures State() == old(State()).(trace := old(trace) + [DocOpened(old(cache).value.name, io.openOk)])
      ensures doc == if io.openOk then Success(Document(old(cache).value.name, env.name(old(dock).current)))
                     else Failure(OpenFault)
    {
      trace := trace + [DocOpened(cache.value.name, io.openOk)];
      if !io.openOk {
        return Failure(OpenFault);
      }
      doc := Success(Document(cache.value.name, env.name(dock.current)));
    }

    /** `newDocument`. */
    method CreateDocument(io: CreateIo) returns (doc: Result<Document, Error>)
      modifies this
      ensures var c := Lifecycle.CreateDocument(env, old(State()), io);
              State() == c.after && doc == c.doc
    {
      var ok := TempFile(io);
      if !ok {
        return Failure(Wrap("failed to create temp file", Cause(TempFileFault)));
      }
      Load(env.tail);
      var opening := OpenDocument(io);
      if opening.Failure? {
        return Failure(Wrap("failed to open document", Cause(opening.error)));
      }
      doc := Success(opening.value);
    }

    /** `Stop`. */
    method Stop()
      requires cache.Some?
      modifies this
      ensures State() == Lifecycle.Stop(old(State()))
    {
      dock := dock.(streaming := false);
      trace := trace + [DockStopped];
      var c := cache.value;
      cache := Some(c.(open := false));
      trace := trace + [CacheClosed(c.name, c.open)];
      var _ := Remove(c.name);
    }

    /** `NewDocument`. */
    method NewDocument(io: CreateIo) returns (err: Option<Error>)
      requires fatal.None? && ov.Some?
      modifies this
      ensures var o := Lifecycle.NewDocument(env, old(State()), io);
              State() == o.after && err == o.err
    {
      var doc := CreateDocument(io);
      if doc.Failure? {
        return Some(Wrap("failed to create document", doc.error));
      }
      ov := Some(ov.value.(doc := doc.value));
      return None;
    }

    /** `PrevContainer`. */
    method PrevContainer(io: CreateIo)
      requires fatal.None? && Started(State())
      modifies this
      ensures State() == Lifecycle.PrevContainer(env, old(State()), io)
    {
      Stop();
      dock := dock.(current := env.prev(dock.current));
      trace := trace + [DockMoved(dock.current)];
      var err := NewDocument(io);
      if err.Some? {
        fatal := err;
      }
    }

    /** `NextContainer`. */
    method NextContainer(io: CreateIo)
      requires fatal.None? && Started(State())
      modifies this
      ensures State() == Lifecycle.NextContainer(env, old(State()), io)
    {
      Stop();
      dock := dock.(current := env.next(dock.current));
      trace := trace + [DockMoved(dock.current)];
      var err := NewDocument(io);
      if err.Some? {
        fatal := err;
      }
    }

    /** `retrieveAllLogs`. */
    method RetrieveAllLogs(io: CreateIo)
      requires fatal.None? && Started(State())
      modifies this
      ensures State() == Lifecycle.RetrieveAllLogs(env, old(State()), io)
    {
      Stop();
      var ok := TempFile(io);
      if !ok {
        fatal := Some(Cause(TempFileFault));
        return;
      }
      Load(0);
      var doc := OpenDocument(io);
      if doc.Failure? {
        fatal := Some(Cause(doc.error));
        return;
      }
      ov := Some(ov.value.(doc := doc.value));
    }

    /** `Shutdown`. */
    method Shutdown()
      requires fatal.None? && Started(State())
      modifies this
      ensures State() == Lifecycle.Shutdown(old(State()))
    {
      ov := Some(ov.value.(closed := true));
      trace := trace + [PagerClosed];
      cancelled := true;
      trace := trace + [ScopeCancelled];
      var _ := Remove(cache.value.name);
    }

    /** `v.ov.SetKeyHandler(b.id, b.keys, handler)`, which registers `b` when the pager accepts it. */
    method SetKeyHandler(b: Binding, accepted: bool) returns (ok: bool)
      requires ov.Some?
      modifies this
      ensures ok == accepted
      ensures State() == if ok then Lifecycle.Bind(old(State()), b) else old(State())
    {
      if !accepted {
        return false;
      }
      ov := Some(ov.value.(bindings := ov.value.bindings + [b]));
      return true;
    }

    /** `Start`. The run loop's dispatch of key handlers is not modelled: the handlers are the methods above. */
    method Start(io: StartIo) returns (err: Option<Error>)
      requires fatal.None?
      modifies this
      ensures var o := Lifecycle.Start(env, old(State()), io);
              State() == o.after && err == o.err
    {
      var doc := CreateDocument(io.create);
      if doc.Failure? {
        return Some(Wrap("failed to create document", doc.error));
      }
      if !io.pagerOk {
        ov := None;
        return Some(Wrap("failed to create oviewer", Cause(PagerFault)));
      }
      ov := Some(Pager(doc.value, [], false));
      var ok := SetKeyHandler(PrevBinding, io.bindOk(PrevKey));
      if !ok {
        return Some(Wrap("failed to bind left key", Cause(BindFault)));
      }
      ok := SetKeyHandler(NextBinding, io.bindOk(NextKey));
      if !ok {
        return Some(Wrap("failed to bind right key", Cause(BindFault)));
      }
      ok := SetKeyHandler(ReportBinding, io.bindOk(ReportKey));
      if !ok {
        return Some(Wrap("failed to bind s key", Cause(BindFault)));
      }
      ok := SetKeyHandler(AllLogsBinding, io.bindOk(AllLogsKey));
      if !ok {
        return Some(Wrap("failed to bind s key", Cause(BindFault)));
      }
      if !io.runOk {
        return Some(Wrap("failed to run oviewer", Cause(RunFault)));
      }
      return None;
    }
  }
}
