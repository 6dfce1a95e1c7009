# stoppable: a cancellable task and its restart supervisor, in Dafny

This project models the sequential core of the Go package `stoppable` and its
`watcher` sub-package.

- **Task runner** (`stoppable.go`, module `Stoppable`). `Open` runs `setup`
  once in the caller's context. The task then calls `do` until a call fails or
  the stop signal is seen, which is checked before each call, and runs
  `teardown` exactly once. It delivers a terminal error: the `do` error, the teardown error, nil, or a
  new error whose text is the `do` text followed by the teardown text. A
  `Closer` hands that error to the first `Close`; every later `Close` gets
  `ErrAlreadyClosed`.
- **Watcher** (`watcher/watcher.go`, module `Watcher`). A supervisor holds at
  most one task in its `io.Closer` field. `Start` is refused while a task is
  held, and `Stop` is refused while none is. A monitor resolves a `do` failure:
  it stops the task and builds a `WatcherError` record. It then asks the
  restart handler whether to run setup again. If that setup fails, the monitor
  records it and tells the handler again.
- **Older watcher** (`watcher.go`, module `LegacyWatcher`). This is the same
  logic in the root package, with `NewWatchdog`. After a failed setup it does
  not reset the field (see Findings).

Go errors are compared by identity. `Errors.Error` therefore carries an id, and
the error built from a `do` error and a teardown error is a `Combined` value.
A `Combined` value is never identical to either of its parts. Callbacks are
given by the results they return (`Stoppable.Script`). `doResults` lists the
results of the `do` calls made before the stop signal is observed. When none of
them fails, the signal is seen right after the last one. The restart handler
is a function from `WatcherError` to `bool`. The `Scenarios` module states,
for every script, the multi-call properties that the package's tests check.

The task can make zero `do` calls. If `Close` comes before the loop's first
pass, the `select` at stoppable.go:60-68 takes the stopper case before any
call, so `Stoppable.DoCalls` may be 0. The tests that see at least one call
(stoppable_test.go:40-47, watcher/watcher_test.go:49-57) do so only because
they first receive on `done`, which only a `do` call sends on.

## Model

| member | source | states |
|---|---|---|
| Errors.CombinedIsNew | stoppable.go:75 | the error made from a `do` error and a teardown error is identical to neither of them |
| Stoppable.DoesNothing | stoppable.go:14-15 | always returns nil |
| Stoppable.DoCalls | stoppable.go:59-70 | `do` is called at most once per scripted result; every call but the last succeeded; the loop stops early only on a failing call |
| Stoppable.LoopError | stoppable.go:59-70 | the loop's error is non-nil iff some `do` call failed, and it is the error of the first failing call |
| Stoppable.TerminalError | stoppable.go:72-81 | nil iff neither `do` nor teardown failed; the `do` error itself when only it failed; the teardown error itself when only teardown failed; when both failed, a new error distinct from both whose text is the `do` text then the teardown text |
| Stoppable.RunTask | stoppable.go:47-84 | the task calls `do` exactly `DoCalls` times and then `teardown` exactly once, and delivers the terminal error of its loop error and teardown result |
| Stoppable.Closer.constructor | stoppable.go:100-103 | a new closer is open and holds the run's terminal error |
| Stoppable.Closer.Close | stoppable.go:30-45 | the first call marks the closer closed, raises the stop signal once and returns the terminal error; a later call returns `ErrAlreadyClosed` and changes nothing |
| Stoppable.Open | stoppable.go:86-104 | setup runs first and exactly once; a failing setup is returned with no closer and nothing else runs; otherwise the task's trace follows and a fresh open closer holds its terminal error |
| Stoppable.TerminalIsNilIff | stoppable.go:59-81 | the terminal error is nil exactly when no `do` call failed and teardown succeeded |
| Stoppable.FirstFailureEndsLoop | stoppable.go:59-70 | the loop stops at the first failing call: it makes `k + 1` calls and keeps that call's error |
| Stoppable.TerminalOfFailedRun | stoppable.go:72-81 | after a `do` failure, `Close` yields that very error when teardown succeeds, and when teardown also fails a different error with both texts in do-then-teardown order |
| Stoppable.TerminalOfStoppedRun | stoppable.go:67-78 | a run stopped by the signal delivers exactly teardown's result |
| LegacyWatcher.Described | watcher.go:128-146 | the description `Error` builds is exactly the held "<kind>: <text>" parts, in do, teardown, setup order, joined by " and " (`JoinAnd` of `Parts`); so it is empty iff the record holds no error, starts with the `do` part when one is held, and ends with the setup part when one is held |
| LegacyWatcher.PartOf | watcher.go:131-145 | a held error contributes exactly one non-empty part "<kind>: <text>", a nil one none |
| LegacyWatcher.JoinAnd | watcher.go:134-144 | no parts give "", one part gives that part, and more parts start with the first followed by " and " |
| LegacyWatcher.JoinAndSnoc | watcher.go:134-144 | adding a part after others puts " and " between them, and after none gives the part alone |
| LegacyWatcher.AppendPartJoins | watcher.go:134-144 | each `if` step of `Error` turns the joined description of the parts so far into the joined description with the new error's part added |
| LegacyWatcher.ErrorText | watcher.go:128-148 | `Error` returns "" for every record, which differs from the built description whenever any error is held |
| LegacyWatcher.RestartOnDo | watcher.go:150-155 | true iff the record has neither a teardown nor a setup error |
| LegacyWatcher.Resolve | watcher.go:47-83 | the record always holds the `do` error; the stop result is recorded as the teardown error iff it is non-nil and not the `do` error; setup is retried iff a handler exists and accepts the first record; a setup error is recorded iff the retry's setup failed; the handler sees the first record, then the full one only after a failed retry |
| LegacyWatcher.Watcher.NewWatchdog | watcher.go:157-164 | a stopped watcher that keeps the handler exactly as given, nil included |
| LegacyWatcher.Watcher.StartLocked | watcher.go:85-99 | refused with `ErrAlreadyStarted`, running nothing, whenever the field is a non-nil interface; otherwise returns setup's error and stores what `Open` returned, a nil pointer included |
| LegacyWatcher.Watcher.Start | watcher.go:101-106 | the same as `StartLocked`, under the lock |
| LegacyWatcher.Watcher.StopLocked | watcher.go:108-114 | `ErrAlreadyStopped` on a nil interface; a panic on a boxed nil pointer; otherwise `Close`'s result, the held closer ending closed with its stop signal raised exactly once; the field is cleared in every case |
| LegacyWatcher.Watcher.Stop | watcher.go:116-120 | the same as `StopLocked`, under the lock |
| LegacyWatcher.Watcher.Watch | watcher.go:47-83 | on nil it does nothing; on a `do` error it closes the held task (raising its stop signal exactly once) or panics on a boxed nil pointer, and follows `Resolve`; a nil handler or a refusal leaves it stopped; a failed restart leaves a boxed nil pointer |
| Watcher.Described | watcher/watcher.go:131-149 | the description `Error` builds is exactly the held "<kind>: <text>" parts, in do, teardown, setup order, joined by " and " (`JoinAnd` of `Parts`); so it is empty iff the record holds no error, starts with the `do` part when one is held, and ends with the setup part when one is held |
| Watcher.ErrorText | watcher/watcher.go:131-151 | `Error` returns "" for every record, which differs from the built description whenever any error is held |
| Watcher.RestartOnDo | watcher/watcher.go:153-159 | true iff the record has neither a teardown nor a setup error |
| Watcher.RestartNever | watcher/watcher.go:161-164 | always false |
| Watcher.DefaultHandler | watcher/watcher.go:169-172 | a given handler is kept; a nil one becomes a handler that always refuses |
| Watcher.Resolve | watcher/watcher.go:47-83 | the record always holds the `do` error; the stop result is recorded as the teardown error iff it is non-nil and not the `do` error; setup is retried iff the handler accepts the first record; a setup error is recorded iff the retry's setup failed; the handler sees the first record, then the full one only after a failed retry |
| Watcher.TeardownRecordOfOwnTask | watcher/watcher.go:64-68 | stopping the failed task records nothing when its teardown succeeded, and the combined do-and-teardown error when it failed |
| Watcher.TeardownRecordWhenStopped | watcher/watcher.go:109-112 | a monitor that finds the watcher already stopped records `ErrAlreadyStopped`, unless the `do` error was that very value |
| Watcher.RestartOnDoRestartsCleanFailure | watcher/watcher.go:153-159 | with `RestartOnDo`, a `do` failure whose teardown succeeded is always restarted |
| Watcher.Watcher.New | watcher/watcher.go:166-179 | a stopped watcher whose handler is the given one, or `RestartNever` in place of nil |
| Watcher.Watcher.StartLocked | watcher/watcher.go:85-100 | refused with `ErrAlreadyStarted` when a task is held, which is left as it was and no callback runs; otherwise returns setup's error unchanged and holds a fresh open closer only if setup succeeded |
| Watcher.Watcher.Start | watcher/watcher.go:102-107 | the same as `StartLocked`, under the lock |
| Watcher.Watcher.StopLocked | watcher/watcher.go:109-115 | `ErrAlreadyStopped` when no task is held, otherwise the held closer's terminal error after closing it, its stop signal raised exactly once; the field is cleared in every case |
| Watcher.Watcher.Stop | watcher/watcher.go:117-122 | the same as `StopLocked`, under the lock |
| Watcher.Watcher.Watch | watcher/watcher.go:47-83 | on nil it does nothing; on a `do` error it closes the held task (raising its stop signal exactly once), its record and handler calls are those of `Resolve` with the stop result it met, and it ends running iff the handler accepted and the restart's setup succeeded |
| Scenarios.OpenCloseTwice | stoppable_test.go:14-71 | a failed setup is returned and only setup ran; otherwise the first `Close` returns the terminal error and the second returns `ErrAlreadyClosed` |
| Scenarios.StartStopTwice | watcher/watcher_test.go:16-69 | Start succeeds; a second Start gets `ErrAlreadyStarted` and runs nothing; Stop returns the terminal error; a second Stop gets `ErrAlreadyStopped` |
| Scenarios.SetupFailsTwice | watcher/watcher_test.go:71-93 | a failing setup is returned by both Starts, the second running setup again, and Stop then gets `ErrAlreadyStopped` |
| Scenarios.LegacySetupFailsTwice | watcher_test.go:62-79 | on the older watcher the second Start gets `ErrAlreadyStarted` without running setup, and Stop panics |
| Scenarios.DoFailureWithoutHandler | watcher/watcher_test.go:95-110 | with the default handler, a `do` failure is recorded, the handler is told once, and a later Stop gets `ErrAlreadyStopped` |
| Scenarios.StopBeforeMonitor | watcher/watcher_test.go:95-110 | when Stop comes before the monitor, it returns the terminal error, and the monitor records `ErrAlreadyStopped` as the teardown error |
| Scenarios.AutomaticRestart | watcher/watcher_test.go:112-128 | with `RestartOnDo`, a `do`-only failure is restarted without an outside Start, and Stop then returns the new run's terminal error |

## Left out

- Goroutines, channels and mutexes. Each operation is one atomic step. The
  monitor is a method that is given the value it received from the failure
  channel. No interleaving is modelled beyond the two orders that
  `DoFailureWithoutHandler` and `StopBeforeMonitor` take.
- Timing of the stop signal. `Open` carries out the task's whole run at once.
  When the stop signal is seen is fixed by the script. The `Closer` keeps the
  terminal error until `Close` collects it, so blocking in `Close` is not
  modelled.
- A `do` that never returns, and a loop that is never stopped. A script is
  finite, so the deadlock that such a `do` causes is not modelled.
- The wrappers `doWrapper` and `teardownWrapper` (watcher/watcher.go:26-45,
  watcher.go:26-45). The value they make the monitor receive is the loop's
  error: a failing `do` publishes its error, and a closed channel yields nil.
  Callers pass `Stoppable.LoopError` as that value.
- The task's inner setup branch (stoppable.go:54-58). The inner setup is always
  `DoesNothing`, so the branch cannot run.
- The unused `timeout` field of `Closer`.
- Side effects of callbacks and of the restart handler. The handler is a pure
  function, and the answer to its second call is ignored.
- Identity of combined errors. Two combined errors made from the same pair of
  errors are equal in the model, whereas in Go each is a new value. The core
  never compares two such errors.
- The two programs under `_example/`. They are network, HTTP and pipe glue,
  and they call a package that is not part of this model.

## Findings

| source | as written | input that shows it | evidently intended | confidence | as-written member | corrected member |
|---|---|---|---|---|---|---|
| watcher.go:92-96 | a failed `Open` stores its nil `*Closer` in the `io.Closer` field and does not reset it, so the field is a non-nil interface | a setup that fails on every call: the second `Start` returns `ErrAlreadyStarted` without running setup, and `Stop` calls `Close` on a nil pointer | reset the field, so that a second `Start` runs setup again and `Stop` returns `ErrAlreadyStopped`, as watcher/watcher.go:93-96 does and watcher_test.go:62-79 expects (that test file does not compile as written: it uses an undefined `TestErr` and calls the four-argument `NewWatchdog` of watcher.go:157 with three, so it shows intent, not an observed run) | high, not executed | Scenarios.LegacySetupFailsTwice | Scenarios.SetupFailsTwice |
| watcher/watcher.go:131-151 | `Error` builds the do, teardown and setup description in a local variable and returns "" | a record holding only a `do` error: the result is "" rather than text starting with "Failure doing: " | return the description it built, as its comment about printing the stack says | medium, not executed | Watcher.ErrorText | Watcher.Described |
