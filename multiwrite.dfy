/**
 * The proxy object: a primary connection, the secondary connections, the
 * retry budget and the log sink, with the replicated surface
 * (`run_everywhere`, `pipe_everywhere`, `<op>_everywhere`) and pass-through
 * of every other operation to the primary.
 */
module MultiWrite {
  import opened Store
  import opened Executors
  import opened Attempts
  import opened FanOut
  import opened Routing

  class RedisMultiWrite {
    /** The primary's state. */
    var local: Conn
    /** The secondaries' states, in the order given at construction. */
    var remote: seq<Conn>
    /** How many times each destination is tried. */
    const retries: Budget
    /** Everything written to the log sink so far. */
    var log: seq<LogEvent>

    /** A proxy over `local` and `remote`; no destination is contacted. */
    constructor (local: Conn, remote: seq<Conn> := [], retries: Budget := 3)
      ensures this.local == local && this.remote == remote && this.retries == retries
      ensures this.log == []
    {
      this.local := local;
      this.remote := remote;
      this.retries := retries;
      this.log := [];
    }

    /**
     * Runs `command` with `args` on the primary and every secondary; returns
     * or raises what the primary's attempt does, after every secondary
     * attempt has finished.
     */
    method RunEverywhere(command: string, args: seq<Value>) returns (r: Result)
      modifies this
      ensures var f := FanOutSpec(old(local), old(remote), Executor(Single(Command(command, args))), retries);
        r == f.result && local == f.local && remote == f.remote && log == old(log) + f.log
      ensures r == AttemptSpec(old(local), Executor(Single(Command(command, args))), retries).result
    {
      var l, rs, events;
      r, l, rs, events := RunAll(local, remote, Executor(Single(Command(command, args))), retries);
      local, remote, log := l, rs, log + events;
    }

    /**
     * Runs the commands as one pipeline on the primary and every secondary;
     * returns or raises what the primary's pipeline does, after every
     * secondary attempt has finished.
     */
    method PipeEverywhere(commands: seq<Command>) returns (r: Result)
      modifies this
      ensures var f := FanOutSpec(old(local), old(remote), Executor(Batch(commands)), retries);
        r == f.result && local == f.local && remote == f.remote && log == old(log) + f.log
      ensures r == AttemptSpec(old(local), Executor(Batch(commands)), retries).result
    {
      var l, rs, events;
      r, l, rs, events := RunAll(local, remote, Executor(Batch(commands)), retries);
      local, remote, log := l, rs, log + events;
    }

    /**
     * Looks up the attribute `name` and calls it with `args`.  An
     * `_everywhere` name whose operation the primary offers is replicated;
     * any other name the primary offers is called on the primary alone, once
     * and without retries; a name the primary lacks raises `AttributeError`
     * and no destination is called.
     */
    method Invoke(name: string, args: seq<Value>) returns (r: Result)
      modifies this
      ensures match Resolve(name, old(local).ops)
        case Missing(n) =>
          r == Raise(AttributeError(n)) && local == old(local) && remote == old(remote) && log == old(log)
        case PassThrough(op) =>
          var s := Call(old(local), Command(op, args));
          r == s.result && local == s.conn && remote == old(remote) && log == old(log)
        case Everywhere(op) =>
          var f := FanOutSpec(old(local), old(remote), Executor(Single(Command(op, args))), retries);
          r == f.result && local == f.local && remote == f.remote && log == old(log) + f.log
    {
      match Resolve(name, local.ops) {
        case Missing(n) =>
          r := Raise(AttributeError(n));
        case PassThrough(op) =>
          var s := Call(local, Command(op, args));
          r, local := s.result, s.conn;
        case Everywhere(op) =>
          r := RunEverywhere(op, args);
      }
    }
  }
}
