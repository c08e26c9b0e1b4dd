/**
 * The store connections the proxy writes through, as scripted oracles.
 *
 * A destination (the primary or a secondary) is a connection whose replies
 * are fixed in advance: the k-th call it receives answers with the k-th
 * scripted result, and with `fallback` once the script is used up.  Like the
 * test double of the repository, a connection keeps a call log that records
 * every command that succeeded, in order; a call that fails leaves no entry.
 */
module Store {

  datatype Option<T> = None | Some(value: T)

  /** A value returned by a store command. */
  datatype Value = Nil | Bool(b: bool) | Int(i: int) | Bytes(s: string) | Array(items: seq<Value>)

  /** One command: an operation name and its positional arguments. */
  datatype Command = Command(op: string, args: seq<Value>)

  /**
   * What a call can raise.  `TooManyRetries` is a subclass of
   * `ConnectionError`, which is a subclass of `RedisError`; `RedisError`
   * here is a store error that is not a connection error; `OtherError` and
   * `AttributeError` lie outside the store's error hierarchy.
   */
  datatype Exception =
    | ConnectionError(message: string)
    | TooManyRetries(message: string, host: string)
    | RedisError(message: string)
    | OtherError(message: string)
    | AttributeError(message: string)
  {
    predicate IsConnectionError() {
      ConnectionError? || TooManyRetries?
    }

    predicate IsRedisError() {
      IsConnectionError() || RedisError?
    }
  }

  /**
   * The class tests the proxy relies on: `TooManyRetries` is a connection
   * error, every connection error is a store error, and `OtherError` and
   * `AttributeError` are neither.
   */
  lemma ExceptionHierarchy(e: Exception)
    ensures e.IsConnectionError() <==> e.ConnectionError? || e.TooManyRetries?
    ensures e.IsConnectionError() ==> e.IsRedisError()
    ensures e.IsRedisError() <==> !(e.OtherError? || e.AttributeError?)
  {
  }

  /** A call either returns a value or raises. */
  datatype Result = Ok(value: Value) | Raise(exc: Exception)

  predicate IsConnectionFailure(r: Result) {
    r.Raise? && r.exc.IsConnectionError()
  }

  /**
   * A destination.  `host` is the `host` entry of the connection pool's
   * keyword arguments, absent when the connection has none; `ops` is the set
   * of operations the connection (and its pipelines) offers.  `calls` counts
   * the calls received so far and `callstack` logs the ones that succeeded.
   */
  datatype Conn = Conn(
    host: Option<string>,
    ops: set<string>,
    script: seq<Result>,
    fallback: Result,
    calls: nat,
    callstack: seq<Command>)

  /** The reply the destination gives to its k-th call. */
  function Answer(c: Conn, k: nat): Result {
    if k < |c.script| then c.script[k] else c.fallback
  }

  /** The connection and its fixed script are the same; only the call state moved. */
  predicate SameOracle(c: Conn, c': Conn) {
    c'.host == c.host && c'.ops == c.ops && c'.script == c.script && c'.fallback == c.fallback
  }

  /** The result of running something against a destination, and its new state. */
  datatype Step = Step(result: Result, conn: Conn)

  /**
   * Calls `cmd` on the destination.  Looking up an operation the connection
   * does not have raises `AttributeError` without reaching the store.
   */
  function Call(c: Conn, cmd: Command): Step {
    if cmd.op !in c.ops then
      Step(Raise(AttributeError(cmd.op)), c)
    else
      var r := Answer(c, c.calls);
      Step(r, c.(calls := c.calls + 1, callstack := if r.Ok? then c.callstack + [cmd] else c.callstack))
  }

  /** One call: it logs `cmd` exactly when it succeeds, and touches only the call state. */
  lemma CallEffect(c: Conn, cmd: Command)
    ensures var s := Call(c, cmd);
      && (cmd.op !in c.ops ==> s == Step(Raise(AttributeError(cmd.op)), c))
      && (cmd.op in c.ops ==> s.result == Answer(c, c.calls) && s.conn.calls == c.calls + 1)
      && SameOracle(c, s.conn)
      && (s.result.Ok? ==> s.conn.callstack == c.callstack + [cmd] && s.conn.calls == c.calls + 1
                           && s.result == Answer(c, c.calls))
      && (s.result.Raise? ==> s.conn.callstack == c.callstack)
  {
  }

  /**
   * A run from `c` to `s` that raised either looked up an operation the
   * connection lacks, or raised the reply to the last call it made.
   */
  predicate RaisesOwnReply(c: Conn, s: Step) {
    s.result.Raise? ==>
      || (s.result.exc.AttributeError? && s.result.exc.message !in c.ops)
      || (c.calls < s.conn.calls && s.result == Answer(c, s.conn.calls - 1))
  }

  /** What holds of a run from a later state of the same connection holds of it from an earlier one. */
  lemma RaisesOwnReplyFrom(c: Conn, p: Conn, s: Step)
    requires SameOracle(c, p) && c.calls <= p.calls
    requires RaisesOwnReply(p, s)
    ensures RaisesOwnReply(c, s)
  {
  }

  /** The label used in diagnostics, `[Unknown]` when the host cannot be found. */
  function HostLabel(c: Conn): (name: string)
    ensures c.host.Some? ==> name == c.host.value
    ensures c.host.None? ==> name == "[Unknown]"
  {
    match c.host
    case Some(h) => h
    case None => "[Unknown]"
  }
}
