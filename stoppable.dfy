/**
 * The task runner of stoppable.go: `Open` runs `setup` once in the caller's
 * context, then a task repeats `do` until it fails or the stop signal is seen,
 * runs `teardown` once, and hands its terminal error to the `Closer`.
 *
 * The goroutine and its channels are abstracted away: the three callbacks are
 * given by the results they return (a `Script`), and the task's whole run is
 * carried out when it is opened. The `Closer` keeps the terminal error until
 * `Close` collects it.
 */
module Stoppable {
  import opened Errors

  const ErrAlreadyClosed := Error(1, "Already closed")

  /** The callback that succeeds at once, used wherever a step has nothing to do. */
  function DoesNothing(): (r: Option<Error>)
    ensures r.None?
  {
    None
  }

  /** One call of a user callback, as recorded in a trace. */
  datatype Call = Setup | Do | Teardown

  /**
   * What the callbacks return during one run. `doResults` lists the results
   * of the `do` calls made before the stop signal is observed: when none of
   * them fails, the signal is seen right after the last one. Results after
   * the first failure are never asked for.
   */
  datatype Script = Script(setup: Option<Error>, doResults: seq<Option<Error>>, teardown: Option<Error>)

  /**
   * How many times the task loop calls `do`: up to and including the first
   * failing call, or every scripted call when none fails (the signal is
   * checked before each call, so when it comes first no call is made).
   */
  function DoCalls(doResults: seq<Option<Error>>): (n: nat)
    ensures n <= |doResults|
    ensures forall i :: 0 <= i < n - 1 ==> doResults[i].None?
    ensures n < |doResults| ==> 0 < n && doResults[n - 1].Some?
  {
    if doResults == [] then 0
    else if doResults[0].Some? then 1
    else 1 + DoCalls(doResults[1..])
  }

  /**
   * The value of the loop's `err` when it exits: the error of the first
   * failing `do` call, or `nil` when the loop ended on the stop signal.
   */
  function LoopError(doResults: seq<Option<Error>>): (r: Option<Error>)
    ensures r.Some? <==> exists i :: 0 <= i < |doResults| && doResults[i].Some?
    ensures forall k :: 0 <= k < |doResults| && doResults[k].Some? && (forall i :: 0 <= i < k ==> doResults[i].None?)
                        ==> r == doResults[k]
  {
    var n := DoCalls(doResults);
    if n == 0 then None else doResults[n - 1]
  }

  /**
   * The terminal error of a run, from the loop's error and teardown's result:
   * the `do` error itself when only it failed, the teardown error itself when
   * only teardown failed, `nil` when neither did, and a new error whose text
   * is the `do` text followed by the teardown text when both did.
   */
  function TerminalError(loopErr: Option<Error>, teardownErr: Option<Error>): (r: Option<Error>)
    ensures r.None? <==> loopErr.None? && teardownErr.None?
    ensures teardownErr.None? ==> r == loopErr
    ensures loopErr.None? ==> r == teardownErr
    ensures loopErr.Some? && teardownErr.Some? ==>
              r.Some? && Text(r.value) == Text(loopErr.value) + Text(teardownErr.value)
              && r.value != loopErr.value && r.value != teardownErr.value
  {
    if teardownErr.None? then loopErr
    else if loopErr.Some? then
      CombinedIsNew(loopErr.value, teardownErr.value);
      Some(Combined(loopErr.value, teardownErr.value))
    else teardownErr
  }

  /** The terminal error of the run that a script describes. */
  function Terminal(s: Script): Option<Error>
  {
    TerminalError(LoopError(s.doResults), s.teardown)
  }

  /** `calls` is a task's trace: `DoCalls` calls of `do`, then exactly one `teardown`. */
  predicate IsTaskTrace(calls: seq<Call>, doResults: seq<Option<Error>>)
  {
    && |calls| == DoCalls(doResults) + 1
    && (forall k :: 0 <= k < |calls| - 1 ==> calls[k] == Do)
    && calls[|calls| - 1] == Teardown
  }

  /**
   * `calls` is the trace of opening a task with script `s`: `setup` first, and
   * when it succeeds, the task's own trace after it.
   */
  predicate IsOpenTrace(calls: seq<Call>, s: Script)
  {
    && |calls| > 0 && calls[0] == Setup
    && (s.setup.Some? ==> calls == [Setup])
    && (s.setup.None? ==> IsTaskTrace(calls[1..], s.doResults))
  }

  /**
   * The task body started by `Open` (its setup is `DoesNothing`): call `do`
   * until it fails or the stop signal is seen, then `teardown` once, and
   * deliver the terminal error.
   */
  method RunTask(doResults: seq<Option<Error>>, teardown: Option<Error>) returns (err: Option<Error>, calls: seq<Call>)
    ensures IsTaskTrace(calls, doResults)
    ensures err == TerminalError(LoopError(doResults), teardown)
  {
    err := None;
    calls := [];
    var doing := true;
    var i := 0;
    while doing
      invariant 0 <= i <= |doResults|
      invariant |calls| == i && forall k :: 0 <= k < i ==> calls[k] == Do
      invariant doing ==> err.None? && forall k :: 0 <= k < i ==> doResults[k].None?
      invariant !doing ==> i == DoCalls(doResults) && err == LoopError(doResults)
      decreases |doResults| - i, doing
    {
      if i == |doResults| {
        // the stop signal is observed before another call
        doing := false;
      } else {
        err := doResults[i];
        i := i + 1;
        calls := calls + [Do];
        if err.Some? {
          doing := false;
        }
      }
    }
    var tearDownErr := teardown;
    calls := calls + [Teardown];
    if tearDownErr.Some? {
      if err.Some? {
        err := Some(Combined(err.value, tearDownErr.value));
      } else {
        err := tearDownErr;
      }
    }
  }

  /**
   * The handle of a running task. `Close` signals the stop and collects the
   * terminal error once; `signals` counts how often the stop channel has
   * been closed, which must never exceed one.
   */
  class Closer {
    var closed: bool
    ghost var signals: nat
    const terminal: Option<Error>

    ghost predicate Valid()
      reads this
    {
      signals == if closed then 1 else 0
    }

    constructor (terminal: Option<Error>)
      ensures Valid() && !closed && this.terminal == terminal
    {
      closed := false;
      signals := 0;
      this.terminal := terminal;
    }

    /**
     * The first call signals the stop and returns the task's terminal error;
     * any later call returns `ErrAlreadyClosed` and touches nothing.
     */
    method Close() returns (err: Option<Error>)
      requires Valid()
      modifies this
      ensures Valid() && closed
      ensures old(closed) ==> err == Some(ErrAlreadyClosed) && unchanged(this)
      ensures !old(closed) ==> err == terminal && signals == 1
    {
      if closed {
        return Some(ErrAlreadyClosed);
      }
      signals := signals + 1;
      err := terminal;
      closed := true;
    }
  }

  /**
   * Run `setup` in the caller's context; when it fails return its error and
   * no closer, having called nothing else. Otherwise start the task and
   * return an open closer holding the run's terminal error.
   */
  method Open(s: Script) returns (closer: Closer?, err: Option<Error>, calls: seq<Call>)
    ensures err == s.setup
    ensures closer == null <==> err.Some?
    ensures closer != null ==> fresh(closer) && closer.Valid() && !closer.closed && closer.terminal == Terminal(s)
    ensures IsOpenTrace(calls, s)
  {
    calls := [Setup];
    err := s.setup;
    if err.Some? {
      closer := null;
      return;
    }
    var terminal, taskCalls := RunTask(s.doResults, s.teardown);
    closer := new Closer(terminal);
    calls := calls + taskCalls;
  }

  /** The terminal error is `nil` exactly when no `do` call failed and teardown succeeded. */
  lemma TerminalIsNilIff(s: Script)
    ensures Terminal(s).None? <==> (forall i :: 0 <= i < |s.doResults| ==> s.doResults[i].None?) && s.teardown.None?
  {
  }

  /**
   * The loop stops at the first failing `do` call: it makes exactly `k + 1`
   * calls and its error is that call's error.
   */
  lemma FirstFailureEndsLoop(doResults: seq<Option<Error>>, k: nat)
    requires k < |doResults| && doResults[k].Some?
    requires forall i :: 0 <= i < k ==> doResults[i].None?
    ensures DoCalls(doResults) == k + 1 && LoopError(doResults) == doResults[k]
  {
  }

  /**
   * A run that ended on its first failing `do` call `k`: when teardown
   * succeeded the terminal error is that `do` error itself; when teardown
   * failed too it is a different error whose text is the `do` text followed
   * by the teardown text.
   */
  lemma TerminalOfFailedRun(s: Script, k: nat)
    requires k < |s.doResults| && s.doResults[k].Some?
    requires forall i :: 0 <= i < k ==> s.doResults[i].None?
    ensures s.teardown.None? ==> Terminal(s) == s.doResults[k]
    ensures s.teardown.Some? ==>
              Terminal(s).Some? && Terminal(s) != s.doResults[k]
              && Text(Terminal(s).value) == Text(s.doResults[k].value) + Text(s.teardown.value)
  {
  }

  /** A run that ended on the stop signal delivers teardown's result as its terminal error. */
  lemma TerminalOfStoppedRun(s: Script)
    requires forall i :: 0 <= i < |s.doResults| ==> s.doResults[i].None?
    ensures Terminal(s) == s.teardown
  {
  }
}
