/**
 * The two executors of the proxy: one runs a single command, the other
 * opens a pipeline, enqueues a batch of commands in order and executes it.
 * A request pairs an executor with its data.
 */
module Executors {
  import opened Store

  const PipelineCmd := Command("pipeline", [])
  const ExecuteCmd := Command("execute", [])

  /** A logical write: one command, or an ordered batch sent as one pipeline. */
  datatype Request = Single(command: Command) | Batch(commands: seq<Command>)

  /**
   * Runs one command: one call to the destination with the command's own
   * operation name and arguments.
   */
  function SimpleExec(c: Conn, cmd: Command): (s: Step)
    ensures SameOracle(c, s.conn)
    ensures s.conn.calls <= c.calls + 1
    ensures s.result.Ok? <==> s.conn.callstack == c.callstack + [cmd]
    ensures s.result.Raise? ==> s.conn.callstack == c.callstack
    ensures s.result.Ok? ==> s.result == Answer(c, c.calls)
    ensures cmd.op !in c.ops ==> s == Step(Raise(AttributeError(cmd.op)), c)
    ensures cmd.op in c.ops ==> s.result == Answer(c, c.calls) && s.conn.calls == c.calls + 1
  {
    Call(c, cmd)
  }

  /** Enqueues `cmds` on an open pipeline, stopping at the first call that raises. */
  function Enqueue(c: Conn, cmds: seq<Command>): Step
    decreases |cmds|
  {
    if cmds == [] then Step(Ok(Nil), c)
    else
      var s := Call(c, cmds[0]);
      if s.result.Raise? then s else Enqueue(s.conn, cmds[1..])
  }

  /** The pipeline executor as a function: open, enqueue every command, execute. */
  function PipeSpec(c: Conn, cmds: seq<Command>): Step {
    var started := Call(c, PipelineCmd);
    if started.result.Raise? then started
    else
      var queued := Enqueue(started.conn, cmds);
      if queued.result.Raise? then queued
      else Call(queued.conn, ExecuteCmd)
  }

  /** Runs the request's executor once against a destination. */
  function Execute(c: Conn, req: Request): Step {
    match req
    case Single(cmd) => SimpleExec(c, cmd)
    case Batch(cmds) => PipeSpec(c, cmds)
  }

  /**
   * The executor a request selects, as the value handed to the attempt
   * runner: the single-command executor for one command, the pipeline
   * executor for a batch.
   */
  function Executor(req: Request): (exec: Conn -> Step)
    ensures req.Single? ==> forall c :: exec(c) == SimpleExec(c, req.command)
    ensures req.Batch? ==> forall c :: exec(c) == PipeSpec(c, req.commands)
  {
    c => Execute(c, req)
  }

  /** The first call an executor makes: the command itself, or opening the pipeline. */
  function FirstCall(req: Request): Command {
    match req
    case Single(cmd) => cmd
    case Batch(_) => PipelineCmd
  }

  /** When the first call of either executor raises, the run ends there with that call's reply. */
  lemma FirstCallFails(c: Conn, req: Request)
    requires FirstCall(req).op in c.ops && Answer(c, c.calls).Raise?
    ensures Execute(c, req) == Step(Answer(c, c.calls), c.(calls := c.calls + 1))
  {
  }

  /** The command sequence a pipeline sends when every call succeeds. */
  function PipeTrace(cmds: seq<Command>): seq<Command> {
    [PipelineCmd] + cmds + [ExecuteCmd]
  }

  /**
   * The pipeline executor: opens a pipeline on the destination, enqueues the
   * commands in the given order and returns what `execute` returns.  Any call
   * that raises ends the run with that exception.
   */
  method PipeExec(c: Conn, cmds: seq<Command>) returns (s: Step)
    ensures s == PipeSpec(c, cmds)
  {
    s := Call(c, PipelineCmd);
    if s.result.Raise? {
      return;
    }
    var pipe := s.conn;
    var i := 0;
    while i < |cmds|
      invariant 0 <= i <= |cmds|
      invariant Enqueue(s.conn, cmds) == Enqueue(pipe, cmds[i..])
    {
      var queued := Call(pipe, cmds[i]);
      if queued.result.Raise? {
        assert cmds[i..][1..] == cmds[i + 1..];
        return queued;
      }
      assert cmds[i..][1..] == cmds[i + 1..];
      pipe := queued.conn;
      i := i + 1;
    }
    s := Call(pipe, ExecuteCmd);
  }

  /**
   * Enqueueing logs a prefix of the batch, in order; it succeeds exactly when
   * the whole batch was logged, using one call per command.
   */
  lemma EnqueueEffect(c: Conn, cmds: seq<Command>)
    ensures var e := Enqueue(c, cmds);
      && SameOracle(c, e.conn)
      && c.callstack <= e.conn.callstack
      && e.conn.callstack[|c.callstack|..] <= cmds
      && (e.result.Ok? <==> e.conn.callstack == c.callstack + cmds)
      && (e.result.Ok? ==> e.conn.calls == c.calls + |cmds|)
      && RaisesOwnReply(c, e)
  {
    var k := EnqueuePrefix(c, cmds);
    EnqueueCalls(c, cmds);
    var e := Enqueue(c, cmds);
    assert e.conn.callstack[|c.callstack|..] == cmds[..k];
    if e.conn.callstack == c.callstack + cmds {
      assert |cmds[..k]| == |cmds|;
    }
  }

  /** Enqueueing logs the first `k` commands of the batch and nothing else; it succeeds exactly when `k` is all of them. */
  lemma {:induction false} EnqueuePrefix(c: Conn, cmds: seq<Command>) returns (k: nat)
    ensures k <= |cmds|
    ensures var e := Enqueue(c, cmds);
      && e.conn.callstack == c.callstack + cmds[..k]
      && (e.result.Ok? <==> k == |cmds|)
    decreases |cmds|
  {
    if cmds == [] {
      k := 0;
    } else {
      var s := Call(c, cmds[0]);
      if s.result.Raise? {
        k := 0;
        assert Enqueue(c, cmds) == s;
        assert s.conn.callstack == c.callstack + cmds[..0];
      } else {
        assert s.conn.callstack == c.callstack + [cmds[0]];
        var j := EnqueuePrefix(s.conn, cmds[1..]);
        k := j + 1;
        assert Enqueue(c, cmds) == Enqueue(s.conn, cmds[1..]);
        assert cmds[..k] == [cmds[0]] + cmds[1..][..j];
        assert c.callstack + cmds[..k] == s.conn.callstack + cmds[1..][..j];
      }
    }
  }

  /**
   * Enqueueing keeps the connection and its script, makes one call per
   * command when it succeeds, and when it fails raises `AttributeError` for
   * an operation the connection lacks, or the reply to its last call.
   */
  lemma {:induction false} EnqueueCalls(c: Conn, cmds: seq<Command>)
    ensures var e := Enqueue(c, cmds);
      && SameOracle(c, e.conn)
      && c.calls <= e.conn.calls
      && (e.result.Ok? ==> e.conn.calls == c.calls + |cmds|)
      && RaisesOwnReply(c, e)
    decreases |cmds|
  {
    if cmds != [] {
      var s := Call(c, cmds[0]);
      CallEffect(c, cmds[0]);
      if s.result.Ok? {
        assert Enqueue(c, cmds) == Enqueue(s.conn, cmds[1..]);
        EnqueueCalls(s.conn, cmds[1..]);
        RaisesOwnReplyFrom(c, s.conn, Enqueue(s.conn, cmds[1..]));
      }
    }
  }

  /**
   * Per destination, the pipeline executor logs `pipeline`, then each command
   * in input order, then `execute`, and returns `execute`'s reply.  When a
   * call raises, the log holds a proper prefix of that sequence.
   */
  lemma PipeEffect(c: Conn, cmds: seq<Command>)
    ensures var s := PipeSpec(c, cmds);
      && SameOracle(c, s.conn)
      && c.callstack <= s.conn.callstack
      && s.conn.callstack[|c.callstack|..] <= PipeTrace(cmds)
      && (s.result.Ok? <==> s.conn.callstack == c.callstack + PipeTrace(cmds))
      && (s.result.Ok? ==> s.conn.calls == c.calls + |cmds| + 2
                           && s.result == Answer(c, c.calls + |cmds| + 1))
      && RaisesOwnReply(c, s)
  {
    var started := Call(c, PipelineCmd);
    CallEffect(c, PipelineCmd);
    if started.result.Ok? {
      var queued := Enqueue(started.conn, cmds);
      EnqueueEffect(started.conn, cmds);
      if queued.result.Ok? {
        PipeExecuted(c, cmds, queued.conn);
      } else {
        PipeEnqueueFailed(c, cmds, started.conn, queued.conn);
        RaisesOwnReplyFrom(c, started.conn, queued);
      }
    } else {
      assert PipeSpec(c, cmds) == started;
      assert started.conn.callstack[|c.callstack|..] == [];
    }
  }

  /** `PipeEffect` in the case where every command was enqueued. */
  lemma PipeExecuted(c: Conn, cmds: seq<Command>, q: Conn)
    requires SameOracle(c, q)
    requires q.callstack == c.callstack + [PipelineCmd] + cmds
    requires q.calls == c.calls + 1 + |cmds|
    ensures var s := Call(q, ExecuteCmd);
      && SameOracle(c, s.conn)
      && c.callstack <= s.conn.callstack
      && s.conn.callstack[|c.callstack|..] <= PipeTrace(cmds)
      && (s.result.Ok? <==> s.conn.callstack == c.callstack + PipeTrace(cmds))
      && (s.result.Ok? ==> s.conn.calls == c.calls + |cmds| + 2
                           && s.result == Answer(c, c.calls + |cmds| + 1))
      && RaisesOwnReply(c, s)
  {
    var s := Call(q, ExecuteCmd);
    CallEffect(q, ExecuteCmd);
    var full := PipeTrace(cmds);
    if s.result.Ok? {
      assert s.conn.callstack == c.callstack + full;
    } else {
      assert s.conn.callstack[|c.callstack|..] == [PipelineCmd] + cmds;
      assert full == ([PipelineCmd] + cmds) + [ExecuteCmd];
    }
  }

  /** `PipeEffect` in the case where enqueueing raised. */
  lemma PipeEnqueueFailed(c: Conn, cmds: seq<Command>, p: Conn, q: Conn)
    requires SameOracle(c, p) && SameOracle(p, q)
    requires p.callstack == c.callstack + [PipelineCmd]
    requires p.callstack <= q.callstack
    requires q.callstack[|p.callstack|..] <= cmds
    requires q.callstack != p.callstack + cmds
    ensures c.callstack <= q.callstack
    ensures q.callstack[|c.callstack|..] <= PipeTrace(cmds)
    ensures q.callstack != c.callstack + PipeTrace(cmds)
  {
    var full := PipeTrace(cmds);
    var rest := q.callstack[|p.callstack|..];
    assert q.callstack == p.callstack + rest;
    assert q.callstack[|c.callstack|..] == [PipelineCmd] + rest;
    assert full == [PipelineCmd] + (cmds + [ExecuteCmd]);
    assert |rest| < |cmds|;
  }

  /** Either executor leaves the destination's connection and script unchanged. */
  lemma ExecuteKeepsOracle(c: Conn, req: Request)
    ensures SameOracle(c, Execute(c, req).conn)
  {
    if req.Batch? {
      PipeEffect(c, req.commands);
    }
  }
}
