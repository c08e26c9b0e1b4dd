# redismultiwrite, modelled in Dafny

`RedisMultiWrite` wraps a connection to a primary Redis instance and a list
of secondary connections. Most attribute accesses go straight to the primary.
A write named `<op>_everywhere`, or one sent through `run_everywhere` or
`pipe_everywhere`, goes to every destination. Each destination is tried up
to `retries` times when it raises a connection error. Only the primary's
value or exception reaches the caller. The outcome of every secondary is
waited for and thrown away before the call returns.

The project models that core in six modules:

- `Store` (`store.dfy`) is the destination as a scripted oracle, like the
  repository's test double. A `Conn` has:
  - an optional host label from the connection pool;
  - the set of operations it offers;
  - a script giving the reply to its k-th call, with a fallback reply once
    the script runs out;
  - a call counter;
  - a `callstack`, which logs each command that succeeded, in order.

  `Call` is one method call on it. An operation the connection lacks raises
  `AttributeError` without reaching the store. The exception hierarchy is
  written out: `TooManyRetries` is a `ConnectionError`, which is a
  `RedisError`.
- `Executors` (`executors.dfy`) has the two executors. `SimpleExec` makes one
  call. `PipeExec` opens a pipeline, enqueues the commands in order and calls
  `execute`. `PipeSpec` is the function version of `PipeExec`, and the loop
  method is proved to compute it. `Executor` turns a request (one command,
  or a batch) into the executor value that the proxy hands to the attempt
  runner, the way `run_everywhere` and `pipe_everywhere` pass
  `_simple_exec` or `_pipe_exec` together with their data.
- `Attempts` (`attempt.dfy`) is the retry loop of `_attempt`. It takes the
  executor as a function of the destination `exec: Conn -> Step`, as the
  source takes `executor`. It is the loop method `Attempt`, proved equal to
  the function `AttemptSpec`. `Try` is one pass of the loop body.
  `AttemptSpec` is then checked against an independent reference: `Runs`
  runs the executor n times in a row.
- `FanOut` (`fanout.dfy`) has `_run_all` (`RunAll`) and `_wait_pile`
  (`WaitPile`). They are proved against `FanOutSpec`. The attempts share no
  state and are never cancelled, so they run one after the other: the
  primary first, then the secondaries in list order.
- `Routing` (`routing.dfy`) is the name test and `rsplit` of `__getattr__`.
- `MultiWrite` (`multiwrite.dfy`) is the proxy class `RedisMultiWrite`. Its
  fields are `local`, `remote`, `retries` and the log sink. Its methods are
  `RunEverywhere`, `PipeEverywhere`, and `Invoke`, which models an attribute
  lookup through `__getattr__` followed by the call.

Logging is modelled as a list of `LogEvent`s: warning, error, and error with
traceback. This makes the drain of secondary outcomes observable.

## Model

| member | source | states |
|---|---|---|
| `Store.CallEffect` | tests/test_redismultiwrite.py:20-58 | a call for an operation the connection lacks raises `AttributeError` and changes nothing; any other call returns or raises the next scripted reply and consumes it; the command is logged exactly when the call succeeds; the connection and its script are unchanged |
| `Store.ExceptionHierarchy` | redismultiwrite.py:35-41 | `TooManyRetries` and `ConnectionError` are exactly the connection errors; every connection error is a store error; `OtherError` and `AttributeError` are not store errors |
| `Store.HostLabel` | redismultiwrite.py:139-142 | the label is the connection pool's `host` entry, or `[Unknown]` when the connection has none |
| `Executors.SimpleExec` | redismultiwrite.py:106-109 | the single-command executor raises `AttributeError` and changes nothing when the operation is missing; otherwise it makes exactly one call and returns or raises that call's reply; the command is logged exactly when the call succeeds |
| `Executors.Executor` | redismultiwrite.py:157-187 | a single command is run by the single-command executor and a batch by the pipeline executor, as `run_everywhere` and `pipe_everywhere` pick them |
| `Executors.FirstCallFails` | redismultiwrite.py:106-116 | when the first call of either executor raises, the run ends with that call's reply after exactly one call |
| `Executors.PipeExec` | redismultiwrite.py:111-116 | the pipeline loop computes `PipeSpec`: open a pipeline, enqueue each command in order, stop at the first call that raises, otherwise return what `execute` returns |
| `Executors.EnqueueEffect` | redismultiwrite.py:114-115 | enqueueing logs a prefix of the batch in order, and succeeds exactly when the whole batch was logged with one call per command; a failure raises `AttributeError` for a missing operation or the reply to the last call made |
| `Executors.EnqueueCalls` | redismultiwrite.py:114-115 | enqueueing keeps the connection and its script, makes one call per command when it succeeds, and a failure raises `AttributeError` for a missing operation or the reply to its last call |
| `Executors.PipeEffect` | redismultiwrite.py:111-116 | per destination the log gains `pipeline`, each command in input order, then `execute`, exactly when the pipeline succeeds, and the result is `execute`'s reply; after a failure the log holds a proper prefix of that sequence, and the exception is `AttributeError` for a missing operation or the reply to the last call made |
| `Executors.ExecuteKeepsOracle` | redismultiwrite.py:106-116 | neither executor changes the destination's connection or its scripted replies |
| `Attempts.Try` | redismultiwrite.py:144-153 | one try runs the executor once; it stops unless the try raised a connection error, and logs a connectivity warning for a connection error, a traceback for another store error, nothing otherwise |
| `Attempts.Attempt` | redismultiwrite.py:137-155 | the retry loop returns the result, destination state and log of `AttemptSpec`: first success returned, a non-connection error re-raised, `TooManyRetries` with the last message and host label when the budget runs out |
| `Attempts.RetryLoopRuns` | redismultiwrite.py:144-155 | from any iteration, the loop takes runs up to the first that is not a connection error and returns its result; if every remaining run is a connection error it uses them all and raises `TooManyRetries` with the last error's message |
| `Attempts.AttemptSemantics` | redismultiwrite.py:137-155 | against the executor run `retries` times in a row: between 1 and `retries` tries; every try but the last a connection error; the last try's result returned unless it is a connection error, in which case all `retries` tries were used and `TooManyRetries(last message, HostLabel)` is raised |
| `Attempts.RetryLoopLog` | redismultiwrite.py:147-151 | from any iteration, the loop appends one connectivity warning per connection error and one traceback entry for a store error that ends it |
| `Attempts.AttemptLogged` | redismultiwrite.py:144-153 | an attempt's log is one warning naming the host per retried connection error, plus a traceback entry when it ends in a non-connection store error |
| `Attempts.DownRuns` | redismultiwrite.py:144-149 | on a destination whose every reply is a connection error, each run of either executor is one failed call that raises the next scripted error and logs nothing |
| `Attempts.DownExhaustsBudget` | redismultiwrite.py:139-155 | a permanently broken destination that offers the executor's first operation is tried exactly `retries` times by either executor, logs no command, and the attempt raises `TooManyRetries` with the last error's message and the destination's host label (`[Unknown]` without one) |
| `Attempts.FlakyThenSucceeds` | redismultiwrite.py:144-149 | for a single command and a budget of three or more, two connection errors and then a success give exactly three tries and the third reply |
| `Attempts.NonConnectionErrorNotRetried` | redismultiwrite.py:147-153 | an error that is not a connection error ends the attempt after one try and is raised unchanged; a store error is logged with its traceback, any other exception is not logged |
| `Attempts.FirstSuccessReturned` | redismultiwrite.py:145-146 | a first try that succeeds is the whole attempt: its value, one try, nothing logged |
| `FanOut.WaitPile` | redismultiwrite.py:94-104 | draining consumes every secondary outcome and raises nothing; it logs `TooManyRetries` as an error with its message, other exceptions as unhandled, successes not at all; the log is empty exactly when every outcome succeeded |
| `FanOut.DrainLogSilent` | redismultiwrite.py:94-104 | draining logs at most one event per outcome, and nothing exactly when every outcome succeeded |
| `FanOut.DrainLogHas` | redismultiwrite.py:101-102 | every secondary `TooManyRetries` appears in the drain log as an error carrying its message |
| `FanOut.SecondariesAt` | redismultiwrite.py:127-128 | each secondary's outcome and final state are those of its own complete attempt with the same executor and budget |
| `FanOut.RunAll` | redismultiwrite.py:118-135 | the result and the primary's new state are exactly the primary's attempt; with no secondaries the log is the primary attempt's alone; every secondary is attempted with the same executor and drained to completion, whatever the primary's outcome |
| `FanOut.PrimaryDecides` | redismultiwrite.py:129-135 | two fan-outs with the same primary give the same result and primary state, whatever the secondaries are and however they fail |
| `FanOut.FanOutSemantics` | redismultiwrite.py:118-135 | the fan-out is the primary's attempt for the caller and each secondary's complete attempt for that secondary; every secondary exhaustion is logged and not raised |
| `Routing.LastIndex` | redismultiwrite.py:86 | the index of the last occurrence of the separator, or -1 when there is none |
| `Routing.SplitAtSuffix` | redismultiwrite.py:85-86 | a name ending in `_everywhere` is split at its last underscore exactly where the suffix begins |
| `Routing.Resolve` | redismultiwrite.py:77-92 | a replicated route names an operation the primary offers, followed by `_everywhere`; a pass-through names a primary operation without the suffix; a missing route names an operation the primary lacks |
| `Routing.EverywhereRoute` | redismultiwrite.py:85-90 | `X_everywhere` routes to replicating `X` when the primary offers `X` and fails with `AttributeError` for `X` otherwise |
| `Routing.PlainRoute` | redismultiwrite.py:91-92 | a name without the suffix goes to the primary when the primary offers it and fails with `AttributeError` otherwise |
| `Routing.PipelineEverywhereRoute` | redismultiwrite.py:85-90 | `pipeline_everywhere` routes to replicating the single operation `pipeline`, not to the pipeline executor |
| `MultiWrite.RedisMultiWrite.constructor` | redismultiwrite.py:51-75 | the proxy keeps the given primary, secondaries (default none) and budget (default 3), with an empty log, and contacts no destination |
| `MultiWrite.RedisMultiWrite.RunEverywhere` | redismultiwrite.py:157-171 | replicates one command; returns or raises the primary's attempt outcome; the new destination states and appended log are those of the fan-out |
| `MultiWrite.RedisMultiWrite.PipeEverywhere` | redismultiwrite.py:173-187 | replicates a batch as one pipeline per destination; returns or raises the primary's pipeline outcome |
| `MultiWrite.RedisMultiWrite.Invoke` | redismultiwrite.py:77-92 | a missing name raises `AttributeError` and changes nothing; a pass-through makes one call on the primary only, without retries; an `_everywhere` name runs the fan-out |

## Left out

- The eventlet `GreenPool`/`GreenPile` scheduling, `pool_size` backpressure and the `greenthread.sleep(0)` yields are not modelled. The attempts share no state and are never cancelled, so a sequential run gives the same results and the same destination states.
- The order of log events is the sequential order above: primary attempt, secondary attempts, the primary's exhaustion error, then the drain. Under the concurrent scheduler, the events of different attempts can interleave.
- Destinations are values held in the proxy's fields and reassigned after each call. The model does not capture two destinations that are the same connection object.
- The real redis client and dynamic `getattr` are replaced by a fixed set of operation names per connection. Replies are scripted per call and do not depend on the arguments. Attributes that are not methods are not modelled.
- The attempt runner applies the executor as a function value. For a batch that function is `PipeSpec`. The loop method `PipeExec` is proved to compute the same step, but the runner does not call it.
- The pipeline object is modelled as the test double does it: `pipeline()`, each enqueued command and `execute()` are calls on the destination, each consuming one scripted reply. A real client would buffer the commands until `execute`.
- `RedisMultiWrite.Invoke` models only the `__getattr__` hook. The proxy's own attributes (`run_everywhere`, `pipe_everywhere`, `local`, …) are found by normal attribute lookup and never reach the hook.
- A retry budget below 1 is excluded by the type `Budget` (at least 1). With such a budget the loop at redismultiwrite.py:144 runs no try, and the source builds `TooManyRetries(None, host)`, which fails on `None.message` at line 40.
- The constructor has no `log` or `pool_size` parameter. The injected log sink is the `log` field, a list of `LogEvent`s, which starts empty. `pool_size` only sizes the scheduler, which is not modelled.
- `RedisMultiWriteError` is declared but never raised, so it has no counterpart.
- Exceptions outside Python's `Exception` class (such as `KeyboardInterrupt`) are not modelled. `_wait_pile` would not catch them.
- tests/test_redismultiwrite.py:152-160 expects `pipeline_everywhere` to produce the pipeline call sequence. As written, that name routes to `run_everywhere('pipeline', (commands,))` (see `Routing.PipelineEverywhereRoute`). The model follows the code and takes pipeline behaviour from `_pipe_exec`.
- tests/timeout.py runs against live servers, and tests/test_redisxdc.py tests a module that is not part of this model.
