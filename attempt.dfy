/**
 * The attempt runner: one executor against one destination, retried on
 * connection errors up to the retry budget.  As in the proxy, the executor
 * is a value handed to the runner together with its data; here it is a
 * function of the destination that returns the outcome and the new state.
 */
module Attempts {
  import opened Store
  import opened Executors

  /** The retry budget of a proxy: how many times one destination is tried. */
  type Budget = n: nat | n >= 1 witness 1

  /** What the proxy writes to its log sink. */
  datatype LogEvent =
    | Warn(text: string)          // a warning
    | Error(text: string)         // an error
    | ErrorTrace(text: string)    // an error logged with the exception's traceback

  /** The outcome of one attempt, the destination's new state, how many tries it took, and its log. */
  datatype Attempted = Attempted(result: Result, conn: Conn, tries: nat, log: seq<LogEvent>)

  /**
   * The retry loop from some iteration on: `left` tries remain, `last` is the
   * last connection error seen, `tries` and `log` are what the earlier
   * iterations did.
   */
  function RetryLoop(exec: Conn -> Step, c: Conn, left: nat, last: Option<Exception>, host: string,
                     tries: nat, log: seq<LogEvent>): Attempted
    requires left > 0 || last.Some?
    decreases left
  {
    if left == 0 then
      Attempted(Raise(TooManyRetries(last.value.message, host)), c, tries, log)
    else
      var s := exec(c);
      match s.result
      case Ok(_) => Attempted(s.result, s.conn, tries + 1, log)
      case Raise(e) =>
        if e.IsConnectionError() then
          RetryLoop(exec, s.conn, left - 1, Some(e), host, tries + 1, log + [Warn("Connectivity issue with " + host)])
        else if e.IsRedisError() then
          Attempted(s.result, s.conn, tries + 1, log + [ErrorTrace("Redis exception with " + host)])
        else
          Attempted(s.result, s.conn, tries + 1, log)
  }

  /** The attempt runner as a function of the destination, the executor and the budget. */
  function AttemptSpec(c: Conn, exec: Conn -> Step, retries: Budget): Attempted {
    RetryLoop(exec, c, retries, None, HostLabel(c), 0, [])
  }

  /**
   * One try of the retry loop: runs the executor once and logs what the loop
   * logs about the outcome.  `stop` is false exactly when the try raised a
   * connection error, the one outcome the loop retries.
   */
  method Try(conn: Conn, exec: Conn -> Step, host: string, log: seq<LogEvent>)
    returns (s: Step, stop: bool, log': seq<LogEvent>)
    ensures s == exec(conn)
    ensures stop <==> !IsConnectionFailure(s.result)
    ensures log' == log + if stop then StopLog(host, s.result) else [Warn("Connectivity issue with " + host)]
  {
    s := exec(conn);
    match s.result {
      case Ok(_) =>
        stop, log' := true, log;
      case Raise(e) =>
        if e.IsConnectionError() {
          stop, log' := false, log + [Warn("Connectivity issue with " + host)];
        } else if e.IsRedisError() {
          stop, log' := true, log + [ErrorTrace("Redis exception with " + host)];
        } else {
          stop, log' := true, log;
        }
    }
  }

  /**
   * Runs `exec` against `conn`: returns the first successful result, re-raises
   * any error that is not a connection error at once, and after `retries`
   * connection errors raises `TooManyRetries` with the last error's message
   * and the destination's host label.
   */
  method Attempt(conn: Conn, exec: Conn -> Step, retries: Budget) returns (r: Result, conn': Conn, log: seq<LogEvent>)
    ensures var a := AttemptSpec(conn, exec, retries);
      r == a.result && conn' == a.conn && log == a.log
  {
    var host := HostLabel(conn);
    var last: Option<Exception> := None;
    conn', log := conn, [];
    ghost var goal := AttemptSpec(conn, exec, retries);
    var i := 0;
    while i < retries
      invariant 0 <= i <= retries
      invariant i > 0 ==> last.Some?
      invariant RetryLoop(exec, conn', retries - i, last, host, i, log) == goal
    {
      RetryStep(exec, conn', retries - i, last, host, i, log);
      var s, stop;
      s, stop, log := Try(conn', exec, host, log);
      if stop {
        return s.result, s.conn, log;
      }
      last := Some(s.result.exc);
      conn' := s.conn;
      i := i + 1;
    }
    r := Raise(TooManyRetries(last.value.message, host));
  }

  /** Running the executor `n` times in a row, each run on the state the previous one left. */
  function Runs(exec: Conn -> Step, c: Conn, n: nat): (runs: seq<Step>)
    ensures |runs| == n
    decreases n
  {
    if n == 0 then []
    else
      var s := exec(c);
      [s] + Runs(exec, s.conn, n - 1)
  }

  /** What the try that ends an attempt logs, when that try is not a connection error. */
  function StopLog(host: string, r: Result): seq<LogEvent> {
    if r.Raise? && r.exc.IsRedisError() then [ErrorTrace("Redis exception with " + host)] else []
  }

  /** One iteration of the retry loop: stop, give up, or go on with one try fewer. */
  lemma RetryStep(exec: Conn -> Step, c: Conn, left: nat, last: Option<Exception>, host: string,
                  tries: nat, log: seq<LogEvent>)
    requires left > 0
    ensures var s := exec(c);
      var a := RetryLoop(exec, c, left, last, host, tries, log);
      var w := Warn("Connectivity issue with " + host);
      if !IsConnectionFailure(s.result) then
        a == Attempted(s.result, s.conn, tries + 1, log + StopLog(host, s.result))
      else
        a == RetryLoop(exec, s.conn, left - 1, Some(s.result.exc), host, tries + 1, log + [w])
  {
  }

  /**
   * The retry loop, from any iteration, against the reference "run the
   * executor `left` times in a row": it stops at the first run that is not
   * a connection error and returns that run's result, or raises
   * `TooManyRetries` with the last error's message when every run was a
   * connection error.
   */
  lemma {:induction false} RetryLoopRuns(exec: Conn -> Step, c: Conn, left: nat, last: Option<Exception>, host: string,
                                         tries: nat, log: seq<LogEvent>)
    requires left > 0
    ensures var a := RetryLoop(exec, c, left, last, host, tries, log);
      var runs := Runs(exec, c, left);
      var k := a.tries - tries - 1;
      && 0 <= k < left
      && (forall i :: 0 <= i < k ==> IsConnectionFailure(runs[i].result))
      && a.conn == runs[k].conn
      && (if IsConnectionFailure(runs[k].result) then
            k == left - 1 && a.result == Raise(TooManyRetries(runs[k].result.exc.message, host))
          else
            a.result == runs[k].result)
    decreases left
  {
    var s := exec(c);
    var runs := Runs(exec, c, left);
    var a := RetryLoop(exec, c, left, last, host, tries, log);
    RetryStep(exec, c, left, last, host, tries, log);
    assert runs[0] == s;
    if IsConnectionFailure(s.result) && left > 1 {
      var log' := log + [Warn("Connectivity issue with " + host)];
      var rest := Runs(exec, s.conn, left - 1);
      assert runs == [s] + rest;
      RetryLoopRuns(exec, s.conn, left - 1, Some(s.result.exc), host, tries + 1, log');
      var k := a.tries - tries - 1;
      assert runs[k] == rest[k - 1];
      forall i | 0 <= i < k
        ensures IsConnectionFailure(runs[i].result)
      {
        if i > 0 {
          assert runs[i] == rest[i - 1];
        }
      }
    }
  }

  /**
   * The attempt runner against the reference: with `runs` the executor run
   * `retries` times in a row, the attempt takes `tries` of them, every try
   * but the last raised a connection error, and the result is the last try's
   * result unless that was a connection error too, in which case all
   * `retries` tries were used and the attempt raises `TooManyRetries`
   * carrying that error's message and the destination's host label.
   */
  lemma AttemptSemantics(c: Conn, exec: Conn -> Step, retries: Budget)
    ensures var a := AttemptSpec(c, exec, retries);
      var runs := Runs(exec, c, retries);
      && 1 <= a.tries <= retries
      && (forall i :: 0 <= i < a.tries - 1 ==> IsConnectionFailure(runs[i].result))
      && a.conn == runs[a.tries - 1].conn
      && (if IsConnectionFailure(runs[a.tries - 1].result) then
            a.tries == retries
            && a.result == Raise(TooManyRetries(runs[retries - 1].result.exc.message, HostLabel(c)))
          else
            a.result == runs[a.tries - 1].result)
  {
    RetryLoopRuns(exec, c, retries, None, HostLabel(c), 0, []);
  }

  /** `n` connectivity warnings about `host`. */
  function Warnings(host: string, n: nat): (w: seq<LogEvent>)
    ensures |w| == n && forall i :: 0 <= i < n ==> w[i] == Warn("Connectivity issue with " + host)
  {
    seq(n, _ => Warn("Connectivity issue with " + host))
  }

  /** What an attempt that took `tries` tries and ended with `r` logs. */
  function AttemptLog(host: string, tries: nat, r: Result): seq<LogEvent>
    requires tries >= 1
  {
    if IsConnectionFailure(r) then Warnings(host, tries)
    else if r.Raise? && r.exc.IsRedisError() then Warnings(host, tries - 1) + [ErrorTrace("Redis exception with " + host)]
    else Warnings(host, tries - 1)
  }

  /** One more retried connection error puts one more warning in front of the log. */
  lemma AttemptLogCons(host: string, k: nat, r: Result)
    requires k >= 2
    ensures [Warn("Connectivity issue with " + host)] + AttemptLog(host, k - 1, r) == AttemptLog(host, k, r)
  {
    var w := Warn("Connectivity issue with " + host);
    assert [w] + Warnings(host, k - 1) == Warnings(host, k);
    assert [w] + Warnings(host, k - 2) == Warnings(host, k - 1);
  }

  /** The retry loop, from any iteration, appends the log its own tries and final result call for. */
  lemma {:induction false} RetryLoopLog(exec: Conn -> Step, c: Conn, left: nat, last: Option<Exception>, host: string,
                                        tries: nat, log: seq<LogEvent>)
    requires left > 0
    ensures var a := RetryLoop(exec, c, left, last, host, tries, log);
      a.tries > tries && a.log == log + AttemptLog(host, a.tries - tries, a.result)
    decreases left
  {
    var s := exec(c);
    var a := RetryLoop(exec, c, left, last, host, tries, log);
    var w := Warn("Connectivity issue with " + host);
    RetryStep(exec, c, left, last, host, tries, log);
    if !IsConnectionFailure(s.result) {
      assert Warnings(host, 0) == [];
      assert AttemptLog(host, 1, s.result) == StopLog(host, s.result);
    } else if left == 1 {
      assert a == Attempted(Raise(TooManyRetries(s.result.exc.message, host)), s.conn, tries + 1, log + [w]);
      assert Warnings(host, 1) == [w];
    } else {
      var log' := log + [w];
      RetryLoopLog(exec, s.conn, left - 1, Some(s.result.exc), host, tries + 1, log');
      var k := a.tries - tries;
      AttemptLogCons(host, k, a.result);
      assert a.log == log + ([w] + AttemptLog(host, k - 1, a.result));
    }
  }

  /**
   * An attempt logs one connectivity warning per connection error it
   * retried, and one traceback when it ends in a store error that is not a
   * connection error.
   */
  lemma AttemptLogged(c: Conn, exec: Conn -> Step, retries: Budget)
    ensures var a := AttemptSpec(c, exec, retries);
      a.tries >= 1 && a.log == AttemptLog(HostLabel(c), a.tries, a.result)
  {
    RetryLoopLog(exec, c, retries, None, HostLabel(c), 0, []);
  }

  /** Every call the destination receives from now on raises a connection error. */
  ghost predicate AlwaysDown(c: Conn) {
    forall k: nat :: c.calls <= k ==> IsConnectionFailure(Answer(c, k))
  }

  /** On an unreachable destination, each run of either executor is one failed call that logs nothing. */
  lemma {:induction false} DownRuns(c: Conn, req: Request, n: nat)
    requires FirstCall(req).op in c.ops && AlwaysDown(c)
    ensures forall i :: 0 <= i < n ==> Runs(Executor(req), c, n)[i].result == Answer(c, c.calls + i)
    ensures forall i :: 0 <= i < n ==> SameOracle(c, Runs(Executor(req), c, n)[i].conn)
    ensures forall i :: 0 <= i < n ==> Runs(Executor(req), c, n)[i].conn.calls == c.calls + i + 1
    ensures forall i :: 0 <= i < n ==> Runs(Executor(req), c, n)[i].conn.callstack == c.callstack
    decreases n
  {
    if n > 0 {
      var s := Execute(c, req);
      assert IsConnectionFailure(Answer(c, c.calls));
      FirstCallFails(c, req);
      assert s.conn == c.(calls := c.calls + 1);
      assert AlwaysDown(s.conn) by {
        forall k: nat | s.conn.calls <= k
          ensures IsConnectionFailure(Answer(s.conn, k))
        {
          assert Answer(s.conn, k) == Answer(c, k);
        }
      }
      DownRuns(s.conn, req, n - 1);
      var runs := Runs(Executor(req), c, n);
      var rest := Runs(Executor(req), s.conn, n - 1);
      assert runs == [s] + rest;
      forall i | 0 < i < n
        ensures runs[i].result == Answer(c, c.calls + i) && SameOracle(c, runs[i].conn)
        ensures runs[i].conn.calls == c.calls + i + 1 && runs[i].conn.callstack == c.callstack
      {
        var j := i - 1;
        assert runs[i] == rest[j];
        assert rest[j].result == Answer(s.conn, s.conn.calls + j);
      }
    }
  }

  /**
   * A destination that always raises a connection error is tried exactly
   * `retries` times by either executor, records nothing, and the attempt
   * raises `TooManyRetries` with the last error's message and its host label.
   */
  lemma DownExhaustsBudget(c: Conn, req: Request, retries: Budget)
    requires FirstCall(req).op in c.ops && AlwaysDown(c)
    ensures var a := AttemptSpec(c, Executor(req), retries);
      && a.tries == retries
      && a.result == Raise(TooManyRetries(Answer(c, c.calls + retries - 1).exc.message, HostLabel(c)))
      && a.conn.callstack == c.callstack
      && a.conn.calls == c.calls + retries
  {
    AttemptSemantics(c, Executor(req), retries);
    DownRuns(c, req, retries);
  }

  /**
   * With a budget of at least three, a destination that fails twice with a
   * connection error and then succeeds is tried exactly three times, and the
   * third try's value is returned.
   */
  lemma FlakyThenSucceeds(c: Conn, cmd: Command, retries: Budget)
    requires retries >= 3 && cmd.op in c.ops
    requires IsConnectionFailure(Answer(c, c.calls)) && IsConnectionFailure(Answer(c, c.calls + 1))
    requires Answer(c, c.calls + 2).Ok?
    ensures var a := AttemptSpec(c, Executor(Single(cmd)), retries);
      && a.tries == 3
      && a.result == Answer(c, c.calls + 2)
      && a.conn.callstack == c.callstack + [cmd]
  {
    var req := Single(cmd);
    AttemptSemantics(c, Executor(req), retries);
    var runs := Runs(Executor(req), c, retries);
    var s1 := Execute(c, req);
    var s2 := Execute(s1.conn, req);
    var s3 := Execute(s2.conn, req);
    assert runs == [s1] + Runs(Executor(req), s1.conn, retries - 1);
    assert Runs(Executor(req), s1.conn, retries - 1) == [s2] + Runs(Executor(req), s2.conn, retries - 2);
    assert Runs(Executor(req), s2.conn, retries - 2)[0] == s3;
    assert runs[1] == s2 && runs[2] == s3;
  }

  /**
   * An error that is not a connection error ends the attempt after exactly
   * one try and is raised as it is; a store error is logged with its
   * traceback, an error outside the store's hierarchy is not logged.
   */
  lemma NonConnectionErrorNotRetried(c: Conn, exec: Conn -> Step, retries: Budget)
    requires exec(c).result.Raise? && !IsConnectionFailure(exec(c).result)
    ensures var a := AttemptSpec(c, exec, retries);
      var e := exec(c).result.exc;
      && a.tries == 1
      && a.result == Raise(e)
      && a.conn == exec(c).conn
      && a.log == if e.IsRedisError() then [ErrorTrace("Redis exception with " + HostLabel(c))] else []
  {
  }

  /** A first try that succeeds is the whole attempt: its value is returned and nothing is logged. */
  lemma FirstSuccessReturned(c: Conn, exec: Conn -> Step, retries: Budget)
    requires exec(c).result.Ok?
    ensures AttemptSpec(c, exec, retries) == Attempted(exec(c).result, exec(c).conn, 1, [])
  {
  }
}
