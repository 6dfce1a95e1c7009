/**
 * The watcher of watcher/watcher.go: a restartable supervisor over one task.
 * A `Watcher` holds at most one running task through its `io.Closer` field;
 * `Start` fails when one is held and `Stop` when none is. The monitor started
 * with each task resolves the task's `do` failure: it stops the task, records
 * the episode in a `WatcherError`, and asks the restart handler whether to
 * set the task up again.
 *
 * The mutex and the goroutines are abstracted away: every operation is one
 * atomic step, and the monitor is a method given the value it received.
 */
module Watcher {
  import opened Errors
  import opened Stoppable
  import Legacy = LegacyWatcher

  const ErrAlreadyStarted := Error(7, "Already started")
  const ErrAlreadyStopped := Error(8, "Already stopped")

  /** The errors of one failure episode, by the step that produced them. */
  datatype WatcherError = WatcherError(doErr: Option<Error>, teardownErr: Option<Error>, setupErr: Option<Error>)

  /** A restart handler: given the episode so far, whether to set the task up again. */
  type Handler = WatcherError -> bool

  /** The parts a record's description is made of: one per error held, in do, teardown, setup order. */
  function Parts(e: WatcherError): seq<string>
  {
    Legacy.PartOf(Legacy.ErrDoing, e.doErr) + Legacy.PartOf(Legacy.ErrTearingDown, e.teardownErr)
    + Legacy.PartOf(Legacy.ErrSettingUp, e.setupErr)
  }

  /**
   * The do -> teardown -> setup description that `Error` builds in a local
   * variable: one "<kind>: <text>" part per error held, in that order, joined
   * by " and ", labelled with the package stoppable's `ErrDoing`,
   * `ErrTearingDown` and `ErrSettingUp`.
   */
  function Described(e: WatcherError): (s: string)
    ensures s == Legacy.JoinAnd(Parts(e))
    ensures s == "" <==> e.doErr.None? && e.teardownErr.None? && e.setupErr.None?
    ensures e.doErr.Some? ==> Text(Legacy.ErrDoing) + ": " + Text(e.doErr.value) <= s
    ensures e.doErr.Some? && e.teardownErr.Some? ==>
              Text(Legacy.ErrDoing) + ": " + Text(e.doErr.value) + " and "
              + Text(Legacy.ErrTearingDown) + ": " + Text(e.teardownErr.value) <= s
    ensures e.doErr.None? && e.teardownErr.Some? ==> Text(Legacy.ErrTearingDown) + ": " + Text(e.teardownErr.value) <= s
    ensures e.setupErr.Some? ==>
              var p := Text(Legacy.ErrSettingUp) + ": " + Text(e.setupErr.value);
              |p| <= |s| && s[|s| - |p|..] == p
              && (e.doErr.None? && e.teardownErr.None? <==> s == p)
  {
    var ds := Legacy.PartOf(Legacy.ErrDoing, e.doErr);
    var ts := ds + Legacy.PartOf(Legacy.ErrTearingDown, e.teardownErr);
    Legacy.AppendPartJoins([], Legacy.ErrDoing, e.doErr);
    Legacy.AppendPartJoins(ds, Legacy.ErrTearingDown, e.teardownErr);
    Legacy.AppendPartJoins(ts, Legacy.ErrSettingUp, e.setupErr);
    var withDo := Legacy.AppendPart("", Legacy.ErrDoing, e.doErr);
    var withTeardown := Legacy.AppendPart(withDo, Legacy.ErrTearingDown, e.teardownErr);
    Legacy.AppendPart(withTeardown, Legacy.ErrSettingUp, e.setupErr)
  }

  /**
   * `WatcherError.Error`: it builds the description and then returns the empty
   * string, so the text differs from the description whenever the record
   * holds any error.
   */
  function ErrorText(e: WatcherError): (s: string)
    ensures s == ""
    ensures s == Described(e) <==> e.doErr.None? && e.teardownErr.None? && e.setupErr.None?
  {
    var _ := Described(e);
    ""
  }

  /** Restart only when the `do` step was the sole failure. */
  function RestartOnDo(e: WatcherError): (r: bool)
    ensures r <==> e.teardownErr.None? && e.setupErr.None?
  {
    if e.teardownErr.None? && e.setupErr.None? then true else false
  }

  /** Never restart. */
  function RestartNever(e: WatcherError): (r: bool)
    ensures !r
  {
    false
  }

  /** The handler `New` stores: the one given, or `RestartNever` in place of nil. */
  function DefaultHandler(handler: Option<Handler>): (r: Handler)
    ensures handler.Some? ==> r == handler.value
    ensures handler.None? ==> forall e :: !r(e)
  {
    if handler.None? then RestartNever else handler.value
  }

  /**
   * The monitor's decision for one `do` failure. `record` is the final failure
   * record, `notified` the records the handler was called with, in order, and
   * `restarted` whether setup was tried again.
   */
  datatype Resolution = Resolution(record: WatcherError, notified: seq<WatcherError>, restarted: bool)

  /**
   * How the monitor resolves a `do` failure `doErr`, given what stopping the
   * task returned, the handler (nil or not) and the result of the restart's
   * setup (consulted only if a restart is tried).
   */
  function Resolve(doErr: Error, stopped: Option<Error>, handler: Option<Handler>, setup: Option<Error>): (r: Resolution)
    ensures r.record.doErr == Some(doErr)
    ensures r.record.teardownErr.Some? <==> stopped.Some? && stopped != Some(doErr)
    ensures r.record.teardownErr.Some? ==> r.record.teardownErr == stopped
    ensures r.restarted <==> handler.Some? && handler.value(r.record.(setupErr := None))
    ensures r.record.setupErr.Some? <==> r.restarted && setup.Some?
    ensures r.record.setupErr.Some? ==> r.record.setupErr == setup
    ensures r.notified == [] <==> handler.None?
    ensures r.notified != [] ==> r.notified[0] == r.record.(setupErr := None) && r.notified[|r.notified| - 1] == r.record
    ensures |r.notified| <= 2 && (|r.notified| == 2 <==> r.record.setupErr.Some?)
  {
    var first := WatcherError(Some(doErr), if stopped.Some? && stopped.value != doErr then stopped else None, None);
    if handler.None? then Resolution(first, [], false)
    else if !handler.value(first) then Resolution(first, [first], false)
    else if setup.None? then Resolution(first, [first], true)
    else
      var second := first.(setupErr := setup);
      Resolution(second, [first, second], true)
  }

  /**
   * What the monitor records as the teardown error when the task it stops is
   * the one that failed with `doErr`: nothing when teardown succeeded, and the
   * combined do-and-teardown error when teardown failed too.
   */
  lemma TeardownRecordOfOwnTask(doErr: Error, teardown: Option<Error>, handler: Option<Handler>, setup: Option<Error>)
    ensures var r := Resolve(doErr, TerminalError(Some(doErr), teardown), handler, setup);
            r.record.teardownErr == if teardown.None? then None else Some(Combined(doErr, teardown.value))
  {
  }

  /**
   * What the monitor records as the teardown error when the watcher was
   * already stopped: `ErrAlreadyStopped`, unless the `do` error was that very
   * value.
   */
  lemma TeardownRecordWhenStopped(doErr: Error, handler: Option<Handler>, setup: Option<Error>)
    ensures var r := Resolve(doErr, Some(ErrAlreadyStopped), handler, setup);
            r.record.teardownErr == if doErr == ErrAlreadyStopped then None else Some(ErrAlreadyStopped)
  {
  }

  /** With `RestartOnDo`, a `do` failure whose teardown succeeded is always restarted. */
  lemma RestartOnDoRestartsCleanFailure(doErr: Error, teardown: Option<Error>, setup: Option<Error>)
    requires teardown.None?
    ensures Resolve(doErr, TerminalError(Some(doErr), teardown), Some(RestartOnDo), setup).restarted
  {
  }

  class Watcher {
    const handler: Option<Handler>
    var closer: Legacy.CloserIface

    /** A held closer is a real, not yet closed one. */
    ghost predicate Valid()
      reads this, Held()
    {
      closer.Boxed? ==> closer.ptr != null && closer.ptr.Valid() && !closer.ptr.closed
    }

    /** The closer object the field points to, if any. */
    function Held(): set<object>
      reads this
    {
      if closer.Boxed? && closer.ptr != null then {closer.ptr} else {}
    }

    /** Whether a task is held, that is, the watcher counts as started. */
    predicate Running()
      reads this
    {
      closer.Boxed?
    }

    /** What stopping the watcher would return now. */
    function StopResult(): Option<Error>
      reads this, Held()
      requires Valid()
    {
      if closer.Nil? then Some(ErrAlreadyStopped) else closer.ptr.terminal
    }

    /** `New`: a stopped watcher whose handler is never nil. */
    constructor New(handler: Option<Handler>)
      ensures Valid() && !Running()
      ensures this.handler == Some(DefaultHandler(handler))
    {
      this.handler := Some(DefaultHandler(handler));
      closer := Legacy.Nil;
    }

    /**
     * `start`: refuses when a task is held; otherwise opens the task, and
     * keeps its closer only if setup succeeded.
     */
    method StartLocked(s: Script) returns (err: Option<Error>, calls: seq<Call>)
      requires Valid()
      modifies this
      ensures Valid()
      ensures old(Running()) ==> err == Some(ErrAlreadyStarted) && calls == [] && closer == old(closer)
      ensures !old(Running()) ==> err == s.setup && IsOpenTrace(calls, s) && (Running() <==> s.setup.None?)
      ensures !old(Running()) && Running() ==> fresh(closer.ptr) && closer.ptr.terminal == Terminal(s)
    {
      if closer.Boxed? {
        return Some(ErrAlreadyStarted), [];
      }
      var c;
      c, err, calls := Open(s);
      closer := Legacy.Boxed(c);
      if err.Some? {
        closer := Legacy.Nil;
        return;
      }
    }

    /** `Start`: `start` under the watcher's lock. */
    method Start(s: Script) returns (err: Option<Error>, calls: seq<Call>)
      requires Valid()
      modifies this
      ensures Valid()
      ensures old(Running()) ==> err == Some(ErrAlreadyStarted) && calls == [] && closer == old(closer)
      ensures !old(Running()) ==> err == s.setup && IsOpenTrace(calls, s) && (Running() <==> s.setup.None?)
      ensures !old(Running()) && Running() ==> fresh(closer.ptr) && closer.ptr.terminal == Terminal(s)
    {
      err, calls := StartLocked(s);
    }

    /**
     * `stop`: `ErrAlreadyStopped` when no task is held; otherwise the result of
     * closing the held closer. The field is cleared either way.
     */
    method StopLocked() returns (err: Option<Error>)
      requires Valid()
      modifies this, Held()
      ensures Valid() && !Running()
      ensures err == old(StopResult())
      ensures old(Running()) ==> old(closer).ptr.closed && old(closer).ptr.signals == 1
    {
      if closer.Nil? {
        return Some(ErrAlreadyStopped);
      }
      err := closer.ptr.Close();
      closer := Legacy.Nil;
    }

    /** `Stop`: `stop` under the watcher's lock. */
    method Stop() returns (err: Option<Error>)
      requires Valid()
      modifies this, Held()
      ensures Valid() && !Running()
      ensures err == old(StopResult())
      ensures old(Running()) ==> old(closer).ptr.closed && old(closer).ptr.signals == 1
    {
      err := StopLocked();
    }

    /**
     * The monitor, once it has received `received` from its task: nothing on
     * `nil`; on a `do` error, stop the task, record the episode, and restart
     * with `restart` if the handler says so, telling the handler again when
     * the restart's setup fails.
     */
    method Watch(received: Option<Error>, restart: Script) returns (record: Option<WatcherError>, notified: seq<WatcherError>)
      requires Valid()
      modifies this, Held()
      ensures Valid()
      ensures received.None? ==> record.None? && notified == [] && closer == old(closer)
      ensures received.Some? ==>
                var r := Resolve(received.value, old(StopResult()), handler, restart.setup);
                && record == Some(r.record) && notified == r.notified
                && (Running() <==> r.restarted && restart.setup.None?)
                && (Running() ==> fresh(closer.ptr) && closer.ptr.terminal == Terminal(restart))
      ensures received.Some? && old(closer).Boxed? ==> old(closer).ptr.closed && old(closer).ptr.signals == 1
    {
      record, notified := None, [];
      if received.None? {
        return;
      }
      var doingErr := received.value;
      var watcherErr := WatcherError(Some(doingErr), None, None);
      var teardownErr := StopLocked();
      if teardownErr.Some? && teardownErr.value != doingErr {
        watcherErr := watcherErr.(teardownErr := teardownErr);
      }
      if handler.None? || !handler.value(watcherErr) {
        record := Some(watcherErr);
        notified := if handler.None? then [] else [watcherErr];
        return;
      }
      notified := [watcherErr];
      var setupErr, calls := StartLocked(restart);
      if setupErr.Some? {
        watcherErr := watcherErr.(setupErr := setupErr);
        notified := notified + [watcherErr];
      }
      record := Some(watcherErr);
    }
  }
}
