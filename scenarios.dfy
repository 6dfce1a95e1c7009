/**
 * Properties that span several calls on one closer or one watcher, each
 * stated for every script of callback results. The monitor runs where the
 * Go tests let it: the value it receives is the error the task's `do`
 * wrapper publishes, that is, the loop's error.
 */
module Scenarios {
  import opened Errors
  import opened Stoppable
  import W = Watcher
  import L = LegacyWatcher

  /**
   * Opening a task and closing it twice: a failed setup is returned as is
   * and nothing else runs; otherwise the first `Close` returns the terminal
   * error and the second `ErrAlreadyClosed`.
   */
  method OpenCloseTwice(s: Script) returns (openErr: Option<Error>, calls: seq<Call>, first: Option<Error>, second: Option<Error>)
    ensures openErr == s.setup
    ensures s.setup.Some? ==> calls == [Setup]
    ensures s.setup.None? ==> IsOpenTrace(calls, s)
    ensures s.setup.None? ==> first == Terminal(s) && second == Some(ErrAlreadyClosed)
  {
    var closer;
    closer, openErr, calls := Open(s);
    if closer == null {
      return openErr, calls, None, None;
    }
    first := closer.Close();
    second := closer.Close();
  }

  /**
   * With a successful setup: `Start` succeeds, a second `Start` is refused
   * without running any callback, `Stop` returns the run's terminal error and
   * a second `Stop` returns `ErrAlreadyStopped`.
   */
  method StartStopTwice(s: Script) returns (first: Option<Error>, second: Option<Error>, secondCalls: seq<Call>,
                                            firstStop: Option<Error>, secondStop: Option<Error>)
    requires s.setup.None?
    ensures first.None? && second == Some(W.ErrAlreadyStarted) && secondCalls == []
    ensures firstStop == Terminal(s) && secondStop == Some(W.ErrAlreadyStopped)
  {
    var w := new W.Watcher.New(None);
    var calls;
    first, calls := w.Start(s);
    second, secondCalls := w.Start(s);
    firstStop := w.Stop();
    secondStop := w.Stop();
  }

  /**
   * A failing setup leaves the watcher stopped: a second `Start` runs setup
   * again and returns the same error, and `Stop` returns `ErrAlreadyStopped`.
   */
  method SetupFailsTwice(s: Script) returns (first: Option<Error>, second: Option<Error>, secondCalls: seq<Call>, stop: Option<Error>)
    requires s.setup.Some?
    ensures first == s.setup && second == s.setup && secondCalls == [Setup]
    ensures stop == Some(W.ErrAlreadyStopped)
  {
    var w := new W.Watcher.New(None);
    var calls;
    first, calls := w.Start(s);
    second, secondCalls := w.Start(s);
    stop := w.Stop();
  }

  /**
   * The same calls on the older watcher of watcher.go: after a failing setup
   * the field holds a nil `*Closer`, so the second `Start` is refused without
   * running setup, and `Stop` dereferences the nil pointer.
   */
  method LegacySetupFailsTwice(s: Script) returns (first: Option<Error>, second: Option<Error>, secondCalls: seq<Call>, stop: L.StopOutcome)
    requires s.setup.Some?
    ensures first == s.setup && second == Some(L.ErrAlreadyStarted) && secondCalls == []
    ensures stop == L.Panicked
  {
    var w := new L.Watcher.NewWatchdog(None);
    var calls;
    first, calls := w.Start(s);
    second, secondCalls := w.Start(s);
    stop := w.Stop();
  }

  /**
   * Without a handler (so `RestartNever`), a `do` failure resolved by the
   * monitor notifies the handler once, leaves the watcher stopped, and a
   * following `Stop` returns `ErrAlreadyStopped`.
   */
  method DoFailureWithoutHandler(s: Script, restart: Script) returns (record: Option<W.WatcherError>, notified: seq<W.WatcherError>, stop: Option<Error>)
    requires s.setup.None? && LoopError(s.doResults).Some?
    ensures record.Some? && record.value.doErr == LoopError(s.doResults) && record.value.setupErr.None?
    ensures notified == [record.value]
    ensures stop == Some(W.ErrAlreadyStopped)
  {
    var w := new W.Watcher.New(None);
    var err, calls := w.Start(s);
    record, notified := w.Watch(LoopError(s.doResults), restart);
    stop := w.Stop();
  }

  /**
   * When `Stop` wins the race against the monitor, it returns the run's
   * terminal error, and the monitor then finds the watcher stopped and
   * records `ErrAlreadyStopped` as the teardown error.
   */
  method StopBeforeMonitor(s: Script, restart: Script) returns (stop: Option<Error>, record: Option<W.WatcherError>)
    requires s.setup.None? && LoopError(s.doResults).Some? && LoopError(s.doResults) != Some(W.ErrAlreadyStopped)
    ensures stop == Terminal(s)
    ensures record.Some? && record.value.doErr == LoopError(s.doResults)
    ensures record.value.teardownErr == Some(W.ErrAlreadyStopped)
  {
    var w := new W.Watcher.New(None);
    var err, calls := w.Start(s);
    stop := w.Stop();
    var notified;
    record, notified := w.Watch(LoopError(s.doResults), restart);
  }

  /**
   * With `RestartOnDo`, a run whose `do` fails and whose teardown succeeds is
   * set up again by the monitor with no outside `Start`; the watcher is then
   * running, and `Stop` returns the new run's terminal error.
   */
  method AutomaticRestart(s: Script, restart: Script) returns (running: bool, stop: Option<Error>)
    requires s.setup.None? && LoopError(s.doResults).Some? && s.teardown.None?
    requires restart.setup.None?
    ensures running
    ensures stop == Terminal(restart)
  {
    var w := new W.Watcher.New(Some(W.RestartOnDo));
    var err, calls := w.Start(s);
    var record, notified := w.Watch(LoopError(s.doResults), restart);
    running := w.Running();
    stop := w.Stop();
  }
}
