/**
 * The older watchdog in watcher.go, in the same package as the task runner.
 * A `Watcher` holds at most one running task through its `io.Closer` field;
 * a monitor, started with each task, resolves the task's `do` failure by
 * stopping it and asking a restart handler whether to set it up again.
 *
 * This copy differs from watcher/watcher.go in one place: after a failed
 * `Open` it leaves the field holding a nil `*Closer` (see `StartLocked`).
 * The mutex and the goroutines are abstracted away: every operation is one
 * atomic step, and the monitor is a method given the value it received.
 */
module LegacyWatcher {
  import opened Errors
  import opened Stoppable

  const ErrAlreadyStarted := Error(2, "Already started")
  const ErrAlreadyStopped := Error(3, "Already stopped")
  const ErrSettingUp := Error(4, "Failure setting up")
  const ErrDoing := Error(5, "Failure doing")
  const ErrTearingDown := Error(6, "Failure tearing down")

  /**
   * An `io.Closer` interface value that can hold a `*Closer`: `Nil` is the nil
   * interface; `Boxed(ptr)` holds a pointer, and a boxed nil pointer is not a
   * nil interface.
   */
  datatype CloserIface = Nil | Boxed(ptr: Closer?)

  /** The errors of one failure episode, by the step that produced them. */
  datatype WatcherError = WatcherError(doErr: Option<Error>, teardownErr: Option<Error>, setupErr: Option<Error>)

  /** A restart handler: given the episode so far, whether to set the task up again. */
  type Handler = WatcherError -> bool

  /** What a stop returns, or that it dereferenced a nil `*Closer`. */
  datatype StopOutcome = Returned(err: Option<Error>) | Panicked

  /** Appends "<kind>: <text of e>" to a description, after " and " unless it is the first part. */
  function AppendPart(sofar: string, kind: Error, e: Option<Error>): string
  {
    if e.None? then sofar
    else (if sofar != "" then sofar + " and " else sofar) + Text(kind) + ": " + Text(e.value)
  }

  /** "<kind>: <text of e>" when `e` is held, and nothing when it is nil. */
  function PartOf(kind: Error, e: Option<Error>): (ps: seq<string>)
    ensures |ps| <= 1 && (|ps| == 1 <==> e.Some?)
    ensures e.Some? ==> ps[0] == Text(kind) + ": " + Text(e.value) && ps[0] != ""
  {
    if e.None? then [] else [Text(kind) + ": " + Text(e.value)]
  }

  /** The parts a record's description is made of: one per error held, in do, teardown, setup order. */
  function Parts(e: WatcherError): seq<string>
  {
    PartOf(ErrDoing, e.doErr) + PartOf(ErrTearingDown, e.teardownErr) + PartOf(ErrSettingUp, e.setupErr)
  }

  /** The parts joined by " and ", with nothing before the first or after the last. */
  function JoinAnd(ps: seq<string>): (s: string)
    ensures ps == [] ==> s == ""
    ensures |ps| == 1 ==> s == ps[0]
    ensures |ps| > 1 ==> ps[0] + " and " <= s
  {
    if ps == [] then ""
    else if |ps| == 1 then ps[0]
    else ps[0] + " and " + JoinAnd(ps[1..])
  }

  /** Joining one more part puts " and " between it and the parts before, if there are any. */
  lemma {:induction false} JoinAndSnoc(ps: seq<string>, p: string)
    ensures JoinAnd(ps + [p]) == if ps == [] then p else JoinAnd(ps) + " and " + p
  {
    if |ps| > 1 {
      assert (ps + [p])[1..] == ps[1..] + [p];
      JoinAndSnoc(ps[1..], p);
    } else if |ps| == 1 {
      assert (ps + [p])[1..] == [p];
    }
  }

  /** `AppendPart` adds to a joined description exactly the part of `e`, " and "-joined. */
  lemma AppendPartJoins(ps: seq<string>, kind: Error, e: Option<Error>)
    requires ps == [] || ps[0] != ""
    ensures AppendPart(JoinAnd(ps), kind, e) == JoinAnd(ps + PartOf(kind, e))
  {
    if e.Some? {
      JoinAndSnoc(ps, Text(kind) + ": " + Text(e.value));
    } else {
      assert ps + PartOf(kind, e) == ps;
    }
  }

  /**
   * The do -> teardown -> setup description that `Error` builds in a local
   * variable: one "<kind>: <text>" part per error held, in that order, joined
   * by " and ".
   */
  function Described(e: WatcherError): (s: string)
    ensures s == JoinAnd(Parts(e))
    ensures s == "" <==> e.doErr.None? && e.teardownErr.None? && e.setupErr.None?
    ensures e.doErr.Some? ==> Text(ErrDoing) + ": " + Text(e.doErr.value) <= s
    ensures e.doErr.Some? && e.teardownErr.Some? ==>
              Text(ErrDoing) + ": " + Text(e.doErr.value) + " and " + Text(ErrTearingDown) + ": " + Text(e.teardownErr.value) <= s
    ensures e.doErr.None? && e.teardownErr.Some? ==> Text(ErrTearingDown) + ": " + Text(e.teardownErr.value) <= s
    ensures e.setupErr.Some? ==>
              var p := Text(ErrSettingUp) + ": " + Text(e.setupErr.value);
              |p| <= |s| && s[|s| - |p|..] == p
              && (e.doErr.None? && e.teardownErr.None? <==> s == p)
  {
    var ds := PartOf(ErrDoing, e.doErr);
    var ts := ds + PartOf(ErrTearingDown, e.teardownErr);
    AppendPartJoins([], ErrDoing, e.doErr);
    AppendPartJoins(ds, ErrTearingDown, e.teardownErr);
    AppendPartJoins(ts, ErrSettingUp, e.setupErr);
    AppendPart(AppendPart(AppendPart("", ErrDoing, e.doErr), ErrTearingDown, e.teardownErr), ErrSettingUp, e.setupErr)
  }

  /**
   * `WatcherError.Error`: it builds the description and then returns the empty
   * string, so the text differs from the description whenever the record
   * holds any error.
   */
  function ErrorText(e: WatcherError): (s: string)
    ensures s == ""
    ensures s == Described(e) <==> e.doErr.None? && e.teardownErr.None? && e.setupErr.None?
  {
    var _ := Described(e);
    ""
  }

  /** Restart only when the `do` step was the sole failure. */
  function RestartOnDo(e: WatcherError): (r: bool)
    ensures r <==> e.teardownErr.None? && e.setupErr.None?
  {
    if e.teardownErr.None? && e.setupErr.None? then true else false
  }

  /**
   * The monitor's decision for one `do` failure. `record` is the final failure
   * record, `notified` the records the handler was called with, in order, and
   * `restarted` whether setup was tried again.
   */
  datatype Resolution = Resolution(record: WatcherError, notified: seq<WatcherError>, restarted: bool)

  /**
   * How the monitor resolves a `do` failure `doErr`, given what stopping the
   * task returned, the handler (nil or not) and the result of the restart's
   * setup (consulted only if a restart is tried).
   */
  function Resolve(doErr: Error, stopped: Option<Error>, handler: Option<Handler>, setup: Option<Error>): (r: Resolution)
    ensures r.record.doErr == Some(doErr)
    ensures r.record.teardownErr.Some? <==> stopped.Some? && stopped != Some(doErr)
    ensures r.record.teardownErr.Some? ==> r.record.teardownErr == stopped
    ensures r.restarted <==> handler.Some? && handler.value(r.record.(setupErr := None))
    ensures r.record.setupErr.Some? <==> r.restarted && setup.Some?
    ensures r.record.setupErr.Some? ==> r.record.setupErr == setup
    ensures r.notified == [] <==> handler.None?
    ensures r.notified != [] ==> r.notified[0] == r.record.(setupErr := None) && r.notified[|r.notified| - 1] == r.record
    ensures |r.notified| <= 2 && (|r.notified| == 2 <==> r.record.setupErr.Some?)
  {
    var first := WatcherError(Some(doErr), if stopped.Some? && stopped.value != doErr then stopped else None, None);
    if handler.None? then Resolution(first, [], false)
    else if !handler.value(first) then Resolution(first, [first], false)
    else if setup.None? then Resolution(first, [first], true)
    else
      var second := first.(setupErr := setup);
      Resolution(second, [first, second], true)
  }

  class Watcher {
    var handler: Option<Handler>
    var closer: CloserIface

    /** A held, non-nil closer has not been closed yet. */
    ghost predicate Valid()
      reads this, Held()
    {
      closer.Boxed? && closer.ptr != null ==> closer.ptr.Valid() && !closer.ptr.closed
    }

    /** The closer object the field points to, if any. */
    function Held(): set<object>
      reads this
    {
      if closer.Boxed? && closer.ptr != null then {closer.ptr} else {}
    }

    /** What stopping the watcher would do now. */
    function PendingStop(): StopOutcome
      reads this, Held()
    {
      if closer.Nil? then Returned(Some(ErrAlreadyStopped))
      else if closer.ptr == null then Panicked
      else Returned(closer.ptr.terminal)
    }

    /** `NewWatchdog`: a stopped watcher keeping the handler exactly as given, nil included. */
    constructor NewWatchdog(handler: Option<Handler>)
      ensures Valid() && closer.Nil? && this.handler == handler
    {
      this.handler := handler;
      closer := Nil;
    }

    /**
     * `start`: refuses when the field is not a nil interface; otherwise opens
     * the task and stores what `Open` returned, a nil pointer included.
     */
    method StartLocked(s: Script) returns (err: Option<Error>, calls: seq<Call>)
      requires Valid()
      modifies this
      ensures Valid() && handler == old(handler)
      ensures old(closer).Boxed? ==> err == Some(ErrAlreadyStarted) && calls == [] && closer == old(closer)
      ensures old(closer).Nil? ==> err == s.setup && IsOpenTrace(calls, s) && closer.Boxed?
      ensures old(closer).Nil? ==> (closer.ptr == null <==> s.setup.Some?)
      ensures old(closer).Nil? && closer.ptr != null ==>
                fresh(closer.ptr) && closer.ptr.terminal == Terminal(s)
    {
      if closer.Boxed? {
        return Some(ErrAlreadyStarted), [];
      }
      var c;
      c, err, calls := Open(s);
      closer := Boxed(c);
    }

    /** `Start`: `start` under the watcher's lock. */
    method Start(s: Script) returns (err: Option<Error>, calls: seq<Call>)
      requires Valid()
      modifies this
      ensures Valid() && handler == old(handler)
      ensures old(closer).Boxed? ==> err == Some(ErrAlreadyStarted) && calls == [] && closer == old(closer)
      ensures old(closer).Nil? ==> err == s.setup && IsOpenTrace(calls, s) && closer.Boxed?
      ensures old(closer).Nil? ==> (closer.ptr == null <==> s.setup.Some?)
      ensures old(closer).Nil? && closer.ptr != null ==>
                fresh(closer.ptr) && closer.ptr.terminal == Terminal(s)
    {
      err, calls := StartLocked(s);
    }

    /**
     * `stop`: `ErrAlreadyStopped` on a nil interface; otherwise closes the held
     * closer and clears the field (the deferred reset runs even when `Close`
     * panics on a nil pointer).
     */
    method StopLocked() returns (out: StopOutcome)
      requires Valid()
      modifies this, Held()
      ensures Valid() && closer.Nil? && handler == old(handler)
      ensures out == old(PendingStop())
      ensures old(closer).Boxed? && old(closer).ptr != null ==> old(closer).ptr.closed && old(closer).ptr.signals == 1
    {
      if closer.Nil? {
        return Returned(Some(ErrAlreadyStopped));
      }
      var c := closer.ptr;
      if c == null {
        closer := Nil;
        return Panicked;
      }
      var err := c.Close();
      closer := Nil;
      out := Returned(err);
    }

    /** `Stop`: `stop` under the watcher's lock. */
    method Stop() returns (out: StopOutcome)
      requires Valid()
      modifies this, Held()
      ensures Valid() && closer.Nil? && handler == old(handler)
      ensures out == old(PendingStop())
      ensures old(closer).Boxed? && old(closer).ptr != null ==> old(closer).ptr.closed && old(closer).ptr.signals == 1
    {
      out := StopLocked();
    }

    /**
     * The monitor, once it has received `received` from its task: nothing on
     * `nil`; on a `do` error, stop the task, record the episode, and restart
     * with `restart` if the handler says so, telling the handler again when
     * the restart's setup fails. It dies with the stop's panic, if any.
     */
    method Watch(received: Option<Error>, restart: Script) returns (record: Option<WatcherError>, notified: seq<WatcherError>, panicked: bool)
      requires Valid()
      modifies this, Held()
      ensures Valid() && handler == old(handler)
      ensures received.None? ==> record.None? && notified == [] && !panicked && closer == old(closer)
      ensures received.Some? && old(PendingStop()).Panicked? ==>
                panicked && record.None? && notified == [] && closer.Nil?
      ensures received.Some? && old(PendingStop()).Returned? ==>
                var r := Resolve(received.value, old(PendingStop()).err, handler, restart.setup);
                && !panicked && record == Some(r.record) && notified == r.notified
                && (r.restarted ==> closer.Boxed? && (closer.ptr == null <==> restart.setup.Some?))
                && (!r.restarted ==> closer.Nil?)
                && (closer.Boxed? && closer.ptr != null ==> fresh(closer.ptr) && closer.ptr.terminal == Terminal(restart))
      ensures received.Some? && old(closer).Boxed? && old(closer).ptr != null ==> old(closer).ptr.closed && old(closer).ptr.signals == 1
    {
      record, notified, panicked := None, [], false;
      if received.None? {
        return;
      }
      var doingErr := received.value;
      var watcherErr := WatcherError(Some(doingErr), None, None);
      var stopped := StopLocked();
      if stopped.Panicked? {
        panicked := true;
        return;
      }
      var teardownErr := stopped.err;
      if teardownErr.Some? && teardownErr.value != doingErr {
        watcherErr := watcherErr.(teardownErr := teardownErr);
      }
      if handler.None? || !handler.value(watcherErr) {
        record := Some(watcherErr);
        notified := if handler.None? then [] else [watcherErr];
        return;
      }
      notified := [watcherErr];
      var setupErr, calls := StartLocked(restart);
      if setupErr.Some? {
        watcherErr := watcherErr.(setupErr := setupErr);
        notified := notified + [watcherErr];
      }
      record := Some(watcherErr);
    }
  }
}
