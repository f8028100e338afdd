/**
 * The session lifecycle of the container-log viewer, as functions over an
 * abstract session state.
 *
 * Each function here is the specification of one method of `Viewer` in
 * internal/viewer/viewer.go: it maps the session before the call, together
 * with what the operating system and the pager answer during the call, to the
 * session after it. The collaborators are abstract: the disk is a set of file
 * names, the temp-file cache a name with an open flag, the dock a current
 * container with an uninterpreted list policy, the pager its current document
 * and key bindings. Every collaborator call the viewer makes is appended to a
 * trace, so that the order of calls can be stated.
 */
module Lifecycle {
  import opened Wrappers

  /** Name prefix of every temp file the viewer creates. */
  const TempPrefix: string := "dlog_"

  /** Position of a container in the dock's list. */
  type Container = nat

  /**
   * What stays fixed for a session: the configured tail, and the dock's
   * container list (display name, previous and next container; how the ends
   * wrap around is the dock's business and is left uninterpreted).
   */
  datatype Env = Env(
    tail: int,
    name: Container -> string,
    prev: Container -> Container,
    next: Container -> Container)

  /** The open temp file `v.cache`. */
  datatype Cache = Cache(name: string, open: bool)

  /** A pager document: the file it reads and the caption it shows. */
  datatype Document = Document(path: string, caption: string)

  datatype KeyAction = PrevKey | NextKey | ReportKey | AllLogsKey

  /** One `SetKeyHandler(id, keys, handler)` registration. */
  datatype Binding = Binding(id: string, keys: seq<string>, action: KeyAction)

  /** The pager root `v.ov`. */
  datatype Pager = Pager(doc: Document, bindings: seq<Binding>, closed: bool)

  /** The log source `v.dock`: its current container and whether it is streaming. */
  datatype Dock = Dock(current: Container, streaming: bool)

  /** One `dock.Load(ctx, cache, tail)` request, with the container it reads from. */
  datatype LoadRequest = LoadRequest(container: Container, dest: string, tail: int)

  /** The collaborator call that failed. */
  datatype Fault = TempFileFault | OpenFault | PagerFault | BindFault | RunFault

  /** An error: the failing call, wrapped with messages on its way up. */
  datatype Error = Cause(fault: Fault) | Wrap(msg: string, inner: Error)

  /** A collaborator call made by the viewer; `ok` is false when the call's error was only logged. */
  datatype Event =
    | DockStopped
    | CacheClosed(name: string, ok: bool)
    | FileRemoved(name: string, ok: bool)
    | DockMoved(to: Container)
    | TempCreated(name: string)
    | TempFailed
    | LoadRequested(req: LoadRequest)
    | DocOpened(name: string, ok: bool)
    | PagerClosed
    | ScopeCancelled

  /**
   * The viewer and the part of the world it touches. `fatal` is the error
   * passed to `log.Fatal`, after which the process has exited. `created`
   * holds every temp-file name this session has created.
   */
  datatype Session = Session(
    disk: set<string>,
    cache: Option<Cache>,
    ov: Option<Pager>,
    dock: Dock,
    cancelled: bool,
    fatal: Option<Error>,
    trace: seq<Event>,
    created: set<string>)

  /**
   * The answers of one create cycle: whether the temp directory accepts a new
   * file, the random suffix `ioutil.TempFile` picks, and whether the pager can
   * open the file.
   */
  datatype CreateIo = CreateIo(dirWritable: bool, suffix: string, openOk: bool)

  /** The answers `Start` receives: its create cycle, the pager constructor, each key binding, the run loop. */
  datatype StartIo = StartIo(create: CreateIo, pagerOk: bool, bindOk: KeyAction -> bool, runOk: bool)

  /** A session together with the document (or error) a create cycle produced. */
  datatype Step<+E> = Step(after: Session, doc: Result<Document, E>)

  /** A session together with the error an operation returned. */
  datatype Outcome = Outcome(after: Session, err: Option<Error>)

  const PrevBinding: Binding := Binding("prevContainer", ["left"], PrevKey)
  const NextBinding: Binding := Binding("nextContainer", ["right"], NextKey)
  const ReportBinding: Binding := Binding("systemReport", ["s"], ReportKey)
  const AllLogsBinding: Binding := Binding("allLogs", ["ctrl+y"], AllLogsKey)

  /** The bindings `Start` registers, in order. */
  const StartBindings: seq<Binding> := [PrevBinding, NextBinding, ReportBinding, AllLogsBinding]

  // ---------------------------------------------------------------------
  // Invariants and views of a session
  // ---------------------------------------------------------------------

  /** The name `v.cache` points at, if any. */
  function CacheNames(s: Session): set<string>
  {
    if s.cache.Some? then {s.cache.value.name} else {}
  }

  /** Temp files of this session that still exist on disk. */
  function LiveFiles(s: Session): set<string>
  {
    s.created * s.disk
  }

  /** At most one session temp file exists, and if one does, `v.cache` points at it. */
  predicate AtMostOneLive(s: Session)
  {
    LiveFiles(s) <= CacheNames(s)
  }

  /** A pager and a cache are set, as a successful `Start` leaves them (the key handlers rely on it). */
  predicate Started(s: Session)
  {
    s.cache.Some? && s.ov.Some?
  }

  /**
   * The pager shows the open cache file, captioned with the dock's current
   * container.
   */
  predicate Showing(env: Env, s: Session)
  {
    && s.cache.Some? && s.ov.Some?
    && s.cache.value.open
    && s.cache.value.name in s.disk
    && s.ov.value.doc == Document(s.cache.value.name, env.name(s.dock.current))
  }

  /** The `dock.Load` requests in a trace, in order. */
  function Loads(t: seq<Event>): seq<LoadRequest>
  {
    if t == [] then []
    else (if t[0].LoadRequested? then [t[0].req] else []) + Loads(t[1..])
  }

  // ---------------------------------------------------------------------
  // The operations
  // ---------------------------------------------------------------------

  /** The file `ioutil.TempFile(os.TempDir(), "dlog_")` tries to create. */
  function TempName(suffix: string): string
  {
    TempPrefix + suffix
  }

  /** `Init`: a fresh cancel scope, no cache, no pager, and the dock as it was handed in. */
  function Init(disk: set<string>, dock: Dock): Session
  {
    Session(disk, None, None, dock, false, None, [], {})
  }

  /**
   * The create cycle shared by `newDocument` and `retrieveAllLogs`: replace
   * `v.cache` by a new temp file, ask the dock to stream `tail` lines into it,
   * open it as a document captioned with the current container. Errors are
   * reported unwrapped; the two callers wrap them differently.
   */
  function CreateCycle(env: Env, s: Session, io: CreateIo, tail: int): Step<Fault>
  {
    var name := TempName(io.suffix);
    if !io.dirWritable || name in s.disk then
      Step(s.(cache := None, trace := s.trace + [TempFailed]), Failure(TempFileFault))
    else
      var s1 := s.(disk := s.disk + {name}, created := s.created + {name},
                   cache := Some(Cache(name, true)), trace := s.trace + [TempCreated(name)]);
      var s2 := s1.(dock := s1.dock.(streaming := true),
                    trace := s1.trace + [LoadRequested(LoadRequest(s1.dock.current, name, tail))]);
      if !io.openOk then
        Step(s2.(trace := s2.trace + [DocOpened(name, false)]), Failure(OpenFault))
      else
        Step(s2.(trace := s2.trace + [DocOpened(name, true)]),
             Success(Document(name, env.name(s2.dock.current))))
  }

  /** `newDocument`: the create cycle with the configured tail, each failure wrapped with its stage. */
  function CreateDocument(env: Env, s: Session, io: CreateIo): Step<Error>
  {
    var c := CreateCycle(env, s, io, env.tail);
    match c.doc
    case Success(d) => Step(c.after, Success(d))
    case Failure(TempFileFault) => Step(c.after, Failure(Wrap("failed to create temp file", Cause(TempFileFault))))
    case Failure(f) => Step(c.after, Failure(Wrap("failed to open document", Cause(f))))
  }

  /**
   * `Stop`: stop the dock, close the cache, remove its file. A close of a
   * closed file and a remove of a missing file fail, and are only logged.
   */
  function Stop(s: Session): Session
    requires s.cache.Some?
  {
    var c := s.cache.value;
    var s1 := s.(dock := s.dock.(streaming := false), trace := s.trace + [DockStopped]);
    var s2 := s1.(cache := Some(c.(open := false)), trace := s1.trace + [CacheClosed(c.name, c.open)]);
    s2.(disk := s2.disk - {c.name}, trace := s2.trace + [FileRemoved(c.name, c.name in s2.disk)])
  }

  /** `NewDocument`: a create cycle whose document replaces the pager's on success. */
  function NewDocument(env: Env, s: Session, io: CreateIo): Outcome
    requires s.ov.Some?
  {
    var c := CreateDocument(env, s, io);
    if c.doc.Failure? then Outcome(c.after, Some(Wrap("failed to create document", c.doc.error)))
    else Outcome(c.after.(ov := Some(s.ov.value.(doc := c.doc.value))), None)
  }

  /** `PrevContainer` and `NextContainer`: retire, move the dock to `to`, recreate; a failure is fatal. */
  function Navigate(env: Env, s: Session, to: Container, io: CreateIo): Session
    requires Started(s)
  {
    var s1 := Stop(s);
    var s2 := s1.(dock := s1.dock.(current := to), trace := s1.trace + [DockMoved(to)]);
    var o := NewDocument(env, s2, io);
    if o.err.Some? then o.after.(fatal := o.err) else o.after
  }

  function PrevContainer(env: Env, s: Session, io: CreateIo): Session
    requires Started(s)
  {
    Navigate(env, s, env.prev(s.dock.current), io)
  }

  function NextContainer(env: Env, s: Session, io: CreateIo): Session
    requires Started(s)
  {
    Navigate(env, s, env.next(s.dock.current), io)
  }

  /** `retrieveAllLogs`: retire, recreate with tail 0 (the whole log) on the same container; a failure is fatal. */
  function RetrieveAllLogs(env: Env, s: Session, io: CreateIo): Session
    requires Started(s)
  {
    var s1 := Stop(s);
    var c := CreateCycle(env, s1, io, 0);
    if c.doc.Failure? then c.after.(fatal := Some(Cause(c.doc.error)))
    else c.after.(ov := Some(s.ov.value.(doc := c.doc.value)))
  }

  /** `Shutdown`: close the pager, cancel the scope, remove the cache file (a failed remove is only logged). */
  function Shutdown(s: Session): Session
    requires Started(s)
  {
    var name := s.cache.value.name;
    var s1 := s.(ov := Some(s.ov.value.(closed := true)), trace := s.trace + [PagerClosed]);
    var s2 := s1.(cancelled := true, trace := s1.trace + [ScopeCancelled]);
    s2.(disk := s2.disk - {name}, trace := s2.trace + [FileRemoved(name, name in s2.disk)])
  }

  /** One successful `SetKeyHandler`. */
  function Bind(s: Session, b: Binding): Session
    requires s.ov.Some?
  {
    s.(ov := Some(s.ov.value.(bindings := s.ov.value.bindings + [b])))
  }

  /**
   * `Start`: create the first document, build the pager on it, register the
   * four key handlers, run. The first failing stage ends the call with its
   * wrapped error.
   */
  function Start(env: Env, s: Session, io: StartIo): (r: Outcome)
    ensures r.err.None? ==> Showing(env, r.after) && r.after.ov.value.bindings == StartBindings
  {
    var c := CreateDocument(env, s, io.create);
    if c.doc.Failure? then Outcome(c.after, Some(Wrap("failed to create document", c.doc.error)))
    else if !io.pagerOk then Outcome(c.after.(ov := None), Some(Wrap("failed to create oviewer", Cause(PagerFault))))
    else
      var s0 := c.after.(ov := Some(Pager(c.doc.value, [], false)));
      if !io.bindOk(PrevKey) then Outcome(s0, Some(Wrap("failed to bind left key", Cause(BindFault))))
      else
        var s1 := Bind(s0, PrevBinding);
        if !io.bindOk(NextKey) then Outcome(s1, Some(Wrap("failed to bind right key", Cause(BindFault))))
        else
          var s2 := Bind(s1, NextBinding);
          if !io.bindOk(ReportKey) then Outcome(s2, Some(Wrap("failed to bind s key", Cause(BindFault))))
          else
            var s3 := Bind(s2, ReportBinding);
            if !io.bindOk(AllLogsKey) then Outcome(s3, Some(Wrap("failed to bind s key", Cause(BindFault))))
            else
              var s4 := Bind(s3, AllLogsBinding);
              if !io.runOk then Outcome(s4, Some(Wrap("failed to run oviewer", Cause(RunFault))))
              else Outcome(s4, None)
  }
}
