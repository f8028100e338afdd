# Session lifecycle of the container-log viewer

This project models the session controller of a terminal viewer for container
logs (`internal/viewer/viewer.go`). A `Viewer` owns one temp file in the
system temp directory (the "cache", named with the prefix `dlog_`) into which
the dock streams a container's log, and a pager that shows that file as a
document. `Start` creates the first cache and document, builds the pager,
binds the keys and runs it. The left/right keys (`PrevContainer`,
`NextContainer`) and ctrl+y (`retrieveAllLogs`) each retire the cache (`Stop`:
stop the dock, close the file, remove it) and then create a new one.
`Shutdown` closes the pager, cancels the scope and removes the last cache file.

The model has three layers:

- `lifecycle.dfy` (module `Lifecycle`): the session as a value, with
  `Session` holding the disk (a set of file names), the optional cache (name
  and open flag), the optional pager (document as path and caption, key
  bindings, closed flag), the dock (current container and whether it is
  streaming), the cancel flag, the fatal error if `log.Fatal` was called, a
  trace of collaborator calls and the set of temp files the session created.
  Each Go method has a function giving the session after the call.
- `viewer.dfy` (module `Viewer`): class `Viewer` with these as fields, whose
  methods update them in the order the Go code does and are proved to end in
  the state the matching `Lifecycle` function gives.
- `properties.dfy` (module `Properties`): the lemmas: fresh allocation, tail
  per path, captions, retire-before-allocate ordering, at most one live file
  over any run of key presses, cleanup at shutdown, and the leak on a failed
  open.

The answers of the collaborators are parameters. `CreateIo` says whether the
temp directory accepts a file, which random suffix `ioutil.TempFile` tries and
whether the pager opens the file. `StartIo` adds whether the pager is built,
which key bindings it accepts and whether the run loop ends without error.
The temp file is created exclusively, so it fails when the name is already on
the disk. `os.Remove` fails exactly when the file is gone and `Close` exactly
when the file is already closed. Both errors are only logged, and the trace
records them as `ok == false`. The dock's container list is uninterpreted
(`Env.name`, `Env.prev`, `Env.next`), and so is its wrap-around policy.

Two behaviours of the code are easy to expect otherwise; the model follows the code:

- A create cycle whose open fails does not remove the temp file it just
  allocated; `v.cache` still names that file. After a failed standalone
  `NewDocument` the next `Stop` removes it. On the fatal paths (navigation,
  fetch-all) nothing runs afterwards, so the file stays on the disk. The
  model shows this (`OpenFailureLeavesTempFile`,
  `NavigationOpenFailureIsFatalAndLeaks`, `FatalSessionLeavesTempFile`) and
  does not fix it.
- `Shutdown` cancels the scope each time it is called. A second call tries
  `os.Remove` on the same name again, and that failure is only logged.

Each `Viewer.Viewer` method's contract names its `Lifecycle` counterpart: the
function of the same name (`newDocument` is `CreateDocument` in both), which
the lemmas in `Properties` are about.

## Model

| member | source | states |
|---|---|---|
| `Viewer.Viewer.Init` | internal/viewer/viewer.go:29-38 | the new viewer has no cache, no pager, an uncancelled scope, an empty trace, and the disk and dock it was given, unchanged |
| `Properties.InitIsEmpty` | internal/viewer/viewer.go:29-38 | after `Init` there is no cache, no pager and no fatal error, the scope is uncancelled, no load has been requested, the disk and the dock are unchanged and no session file exists |
| `Viewer.Viewer.CreateDocument` | internal/viewer/viewer.go:127-146 | `newDocument` leaves the state and returns the document or wrapped error of the create cycle: a new temp file, a load of the configured tail, an open, and a caption from the current container |
| `Viewer.Viewer.TempFile` | internal/viewer/viewer.go:130-133 | `v.cache` becomes a new open file `dlog_<suffix>` added to the disk exactly when the directory is writable and the name is free; otherwise `v.cache` becomes nil and the disk is unchanged |
| `Properties.CreateAllocatesFreshFile` | internal/viewer/viewer.go:130-133 | `newDocument` first replaces the cache by a file with the `dlog_` prefix that was not on the disk before; if allocation fails it returns the wrapped temp-file error with the disk unchanged and no load or open attempted |
| `Properties.TempFileCanSucceed` | internal/viewer/viewer.go:130 | whatever the disk holds, some suffix gives a temp name that is not on it, so allocation failure is never forced by the model |
| `Viewer.Viewer.Load` | internal/viewer/viewer.go:135 | the dock starts streaming and records one load request of the given tail from its current container into the cache file |
| `Properties.CycleLoads` | internal/viewer/viewer.go:130-135 | a create cycle adds exactly one load request (the given tail, the current container, the new file) when the file was created, and none when allocation failed |
| `Properties.CycleEvents` | internal/viewer/viewer.go:130-140 | a create cycle's calls are a failed allocation alone, or allocation, then one load of the given tail from the current container into the new file, then the open |
| `Properties.CreateDocumentRequestsConfiguredTail` | internal/viewer/viewer.go:135 | `newDocument` requests exactly `cfg.Tail` lines for the new cache |
| `Viewer.Viewer.OpenDocument` | internal/viewer/viewer.go:137-143 | opening records the attempt; on success the document reads the cache file and is captioned with the dock's current container name, otherwise the open fault is returned |
| `Properties.OpenFailureLeavesTempFile` | internal/viewer/viewer.go:137-140 | when the open fails, `newDocument` returns the wrapped open error, but `v.cache` names the new open file, which stays on the disk as a session file |
| `Viewer.Viewer.Stop` | internal/viewer/viewer.go:88-93 | the dock stops, the cache is closed and its file removed, in that order, and each failure is only recorded |
| `Viewer.Viewer.Remove` | internal/viewer/viewer.go:92 | the name leaves the disk; the remove reports failure exactly when the file was already gone |
| `Properties.StopRetiresCache` | internal/viewer/viewer.go:88-93 | `Stop` always completes; afterwards no session file is on the disk, the cache is closed and the dock is not streaming; its calls are stop, close, remove, and the close or remove fails exactly when the file was already closed or already gone |
| `Viewer.Viewer.NewDocument` | internal/viewer/viewer.go:95-105 | `NewDocument` runs the create cycle; on success the pager's document is replaced and no error is returned; on failure it returns the cycle's error wrapped with "failed to create document" |
| `Properties.NewDocumentTrace` | internal/viewer/viewer.go:95-105 | `NewDocument` makes no calls besides those of its create cycle with the configured tail |
| `Properties.NewDocumentReplacesOnlyOnSuccess` | internal/viewer/viewer.go:95-105 | `NewDocument` fails exactly when allocation or open fails; on failure the pager is unchanged, on success only its document changes, to the new file captioned with the current container |
| `Properties.NewDocumentShowsCurrentContainer` | internal/viewer/viewer.go:137-145 | after a successful `NewDocument` the pager shows the open cache file captioned with the dock's current container name |
| `Properties.NewDocumentWithoutStopLeaks` | internal/viewer/viewer.go:95-105 | `NewDocument` on a session whose cache file still exists leaves both the old and the new file on the disk, so callers must `Stop` first |
| `Viewer.Viewer.PrevContainer` | internal/viewer/viewer.go:107-115 | `PrevContainer` calls `Stop`, moves the dock to the previous container and calls `NewDocument`; if that returns an error, the error goes to `log.Fatal` |
| `Viewer.Viewer.NextContainer` | internal/viewer/viewer.go:117-125 | the same as `PrevContainer`, moving the dock to the next container |
| `Properties.NavigateEvents` | internal/viewer/viewer.go:107-125 | a navigation's calls begin with dock stop, cache close, file remove and dock move, and a temp file is allocated only after those four calls |
| `Properties.NavigationRetiresBeforeAllocating` | internal/viewer/viewer.go:107-125 | in every navigation, the old cache is closed and removed, and then the dock moves, before any new temp file is allocated |
| `Properties.NavigateRequestsConfiguredTail` | internal/viewer/viewer.go:107-125 | a navigation requests exactly one load, of `cfg.Tail` lines from the container it moved to, into the new file |
| `Properties.PrevContainerRequestsConfiguredTail` | internal/viewer/viewer.go:107-115 | `PrevContainer` requests exactly `cfg.Tail` lines from the previous container into the new file |
| `Properties.NextContainerRequestsConfiguredTail` | internal/viewer/viewer.go:117-125 | `NextContainer` requests exactly `cfg.Tail` lines from the next container into the new file |
| `Properties.NavigateKeepsOneLiveFile` | internal/viewer/viewer.go:107-125 | a navigation keeps at most one session file on the disk and moves the dock; it succeeds exactly when the new file can be created and opened, and then only the new file exists and the pager shows it captioned with the new container; otherwise the session is fatal |
| `Properties.NavigationOpenFailureIsFatalAndLeaks` | internal/viewer/viewer.go:107-115 | when the open fails during navigation, `log.Fatal` gets the doubly wrapped open error, and the new temp file is left on the disk |
| `Viewer.Viewer.RetrieveAllLogs` | internal/viewer/viewer.go:162-183 | `retrieveAllLogs` calls `Stop`, allocates a new temp file, loads the whole log into it and replaces the pager's document; an allocation or open failure goes to `log.Fatal` |
| `Properties.RetrieveAllLogsRequestsWholeLog` | internal/viewer/viewer.go:172 | `retrieveAllLogs` requests tail 0 (the whole log) from the unchanged container, whatever `cfg.Tail` is |
| `Properties.RetrieveAllLogsEvents` | internal/viewer/viewer.go:162-170 | `retrieveAllLogs`'s calls begin with dock stop, cache close and file remove, and its one temp-file attempt, failed or successful, comes right after those three calls |
| `Properties.RetrieveAllLogsRetiresBeforeAllocating` | internal/viewer/viewer.go:162-170 | `retrieveAllLogs` stops the dock, closes and removes the old cache before allocating the new one |
| `Properties.RetrieveAllLogsKeepsOneLiveFile` | internal/viewer/viewer.go:162-183 | `retrieveAllLogs` keeps at most one session file on the disk and does not move the dock; it succeeds exactly when the new file can be created and opened, and then only the new file exists and the pager shows it with an unchanged caption |
| `Properties.RetrieveAllLogsFatalErrorIsUnwrapped` | internal/viewer/viewer.go:167-177 | `retrieveAllLogs` passes the raw temp-file or open error to `log.Fatal`; after any allocation failure (an unwritable directory or a taken name) `v.cache` is nil and the live session files are those `Stop` left, and after an open failure the new file stays on the disk |
| `Viewer.Viewer.Start` | internal/viewer/viewer.go:50-86 | `Start` leaves the state and returns the error that `Lifecycle.Start` gives: create, build pager, bind four keys, run, stopping at the first failure |
| `Viewer.Viewer.SetKeyHandler` | internal/viewer/viewer.go:65-67 | a binding is appended to the pager's bindings exactly when the pager accepts it |
| `Lifecycle.Start` | internal/viewer/viewer.go:50-86 | when `Start` returns no error, the pager shows the open cache file captioned with the current container, with the four bindings left, right, s and ctrl+y in that order |
| `Properties.StartCreateFailureLeavesPagerUnset` | internal/viewer/viewer.go:51-54 | if the first document cannot be created, `v.ov` is never assigned and the error is wrapped with "failed to create document" |
| `Properties.StartPagerFailureLeavesTempFile` | internal/viewer/viewer.go:56-59 | when the pager cannot be built, `Start` returns "failed to create oviewer" with `v.ov` nil, and the new temp file stays on the disk while no pager exists for `Shutdown` |
| `Properties.StartStopsAtFirstRefusedBinding` | internal/viewer/viewer.go:65-79 | when the pager refuses the k-th binding, exactly the bindings before it are registered, and the error is that stage's message: left, right, s, and s again for ctrl+y |
| `Properties.StartRunFailureKeepsBindings` | internal/viewer/viewer.go:81-83 | when the run loop fails, `Start` returns "failed to run oviewer" with all four bindings registered and the first document shown |
| `Properties.AllLogsBindingFailureReadsAsReportKey` | internal/viewer/viewer.go:73-79 | a refused ctrl+y binding returns the same error, "failed to bind s key", as a refused s binding |
| `Properties.StartShowsFirstDocument` | internal/viewer/viewer.go:50-86 | a successful `Start` after `Init` shows the first document captioned with the dock's current container, has requested exactly one load of `cfg.Tail` lines, and leaves exactly one session file |
| `Viewer.Viewer.Shutdown` | internal/viewer/viewer.go:41-48 | `Shutdown` closes the pager, cancels the scope and removes the cache file, and a failed remove is only logged |
| `Properties.ShutdownRemovesLastFile` | internal/viewer/viewer.go:41-48 | after `Shutdown` the pager is closed, the scope cancelled, the cache name gone from the disk, and no session file remains |
| `Properties.ShutdownTwiceRemovesNothing` | internal/viewer/viewer.go:45-47 | a second `Shutdown` leaves the disk unchanged and only logs the failed remove of the same name |
| `Properties.Handle` | internal/viewer/viewer.go:65-78 | each key handler either ends with the new document shown or ends the process |
| `Properties.Replay` | internal/viewer/viewer.go:81-83 | running the bound handlers one after another, stopping at a fatal error, leaves a session that still has a pager and a cache unless it is fatal |
| `Properties.ReplayKeepsOneLiveFile` | internal/viewer/viewer.go:107-183 | for any sequence of navigation and fetch-all key presses, at most one session file is on the disk, and unless the process ended the pager shows it |
| `Properties.SessionLeavesNoTempFiles` | internal/viewer/viewer.go:41-48 | a session that starts, handles any key presses without a fatal error and shuts down leaves no temp file of its own on the disk |
| `Properties.FatalSessionLeavesTempFile` | internal/viewer/viewer.go:112-114 | after a successful start, a navigation whose open fails ends the process with one session file still on the disk |

## Left out

- `systemReport` (internal/viewer/viewer.go:148-160): it reads the runtime's memory statistics, formats them for the log and triggers garbage collection. None of that touches the session state.
- The dock's log streaming is not modelled. It is asynchronous I/O in a library that is not part of this model. The model records only the load requests, a streaming flag and the current container. How `SetPrevContainer` and `SetNextContainer` wrap around is left uninterpreted.
- The pager's internals are not modelled: `SetLog`, follow and wrap mode (lines 61-63), `doc.SetLog` (line 143) and rendering. The pager is only its document, its key bindings and a closed flag.
- Go runs the key handlers inside `Run`. The model runs `Run` as a success or failure only, and the handlers as separate calls after `Start` (`Properties.Replay`). `Run` changes no modelled state, so the order makes no difference to the state.
- Context cancellation is not modelled, and neither are the concurrent writer and reader of the cache file. Only a `cancelled` flag is kept.
- `ioutil.TempFile` retries with new random names. The model makes one attempt with the suffix it is given. Other OS failures of remove and close, such as permissions, are not modelled.
- `NavigateKeepsOneLiveFile`, `RetrieveAllLogsKeepsOneLiveFile`, `ReplayKeepsOneLiveFile` and `SessionLeavesNoTempFiles` rely on that: removing an existing file always succeeds. In Go a failed `os.Remove` (lines 45-47, 92) is only logged and never retried, so the file would stay on the disk and these properties would not hold.
- The text of log output is not modelled. Errors that are only logged appear in the trace as `ok == false`. Message text is kept only for errors that are returned or passed to `log.Fatal`.
- A nil dereference panics in Go. Instead, each method requires the pointers it dereferences: `Stop` requires a cache, `Shutdown` and the handlers require a pager and a cache.
- After `log.Fatal` the process has exited. The class methods therefore require that no fatal error has occurred. The `Lifecycle` functions stay total, and `Properties.Replay` stops at the first fatal error.
- When `oviewer.NewOviewer` fails, the model sets `v.ov` to nil. This assumes the library returns nil with its error; the library is not part of this model.
- Viewer.Viewer.NewDocument: requires `v.ov` on every call. The Go code dereferences it only after a successful create cycle, so a failing call with nil `v.ov` is not covered.
