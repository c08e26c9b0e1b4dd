/**
 * The fan-out coordinator: one executor is attempted on the primary and on
 * every secondary; only the primary's outcome reaches the caller, and every
 * secondary outcome is drained before the call finishes.
 *
 * The attempts share no state, so they are modelled one after the other:
 * the primary first, then the secondaries in list order.  Each destination's
 * outcome depends only on its own state, so any other order gives the same
 * results and the same final states.
 */
module FanOut {
  import opened Store
  import opened Executors
  import opened Attempts

  /** The secondaries' outcomes, new states and logs, in list order. */
  datatype Pile = Pile(results: seq<Result>, conns: seq<Conn>, log: seq<LogEvent>)

  /** What one fanned-out call returns or raises, the new destination states, and the log. */
  datatype Fanned = Fanned(result: Result, local: Conn, remote: seq<Conn>, log: seq<LogEvent>)

  /** Attempts every secondary with the same executor and budget. */
  function Secondaries(remote: seq<Conn>, exec: Conn -> Step, retries: Budget): Pile
    decreases |remote|
  {
    if remote == [] then Pile([], [], [])
    else
      var init := Secondaries(remote[..|remote| - 1], exec, retries);
      var a := AttemptSpec(remote[|remote| - 1], exec, retries);
      Pile(init.results + [a.result], init.conns + [a.conn], init.log + a.log)
  }

  /** What draining one secondary outcome logs. */
  function DrainEvent(r: Result): seq<LogEvent> {
    match r
    case Ok(_) => []
    case Raise(TooManyRetries(message, _)) => [Error(message)]
    case Raise(_) => [ErrorTrace("Unhandled Exception")]
  }

  /** What draining a pile of secondary outcomes logs, in order. */
  function DrainLog(pile: seq<Result>): seq<LogEvent>
    decreases |pile|
  {
    if pile == [] then [] else DrainLog(pile[..|pile| - 1]) + DrainEvent(pile[|pile| - 1])
  }

  /** What the coordinator logs about the primary's own failure. */
  function PrimaryLog(r: Result): seq<LogEvent> {
    match r
    case Raise(TooManyRetries(message, _)) => [Error(message)]
    case _ => []
  }

  /** The coordinator as a function of the destinations, the executor and the budget. */
  function FanOutSpec(local: Conn, remote: seq<Conn>, exec: Conn -> Step, retries: Budget): Fanned {
    var p := AttemptSpec(local, exec, retries);
    if remote == [] then
      Fanned(p.result, p.conn, [], p.log)
    else
      var pile := Secondaries(remote, exec, retries);
      Fanned(p.result, p.conn, pile.conns, p.log + pile.log + PrimaryLog(p.result) + DrainLog(pile.results))
  }

  /**
   * Drains a pile of secondary outcomes: consumes every one of them and
   * raises nothing.  A `TooManyRetries` is logged as an error with its
   * message, any other exception as an unhandled exception, and a success
   * leaves no trace.
   */
  method WaitPile(pile: seq<Result>) returns (events: seq<LogEvent>)
    ensures events == DrainLog(pile)
    ensures |events| <= |pile|
    ensures events == [] <==> forall i :: 0 <= i < |pile| ==> pile[i].Ok?
  {
    events := [];
    var i := 0;
    while i < |pile|
      invariant 0 <= i <= |pile|
      invariant events == DrainLog(pile[..i])
    {
      assert pile[..i + 1][..i] == pile[..i];
      events := events + DrainEvent(pile[i]);
      i := i + 1;
    }
    assert pile[..i] == pile;
    DrainLogSilent(pile);
  }

  /** Draining logs at most one event per outcome, and nothing exactly when every outcome succeeded. */
  lemma {:induction false} DrainLogSilent(pile: seq<Result>)
    ensures |DrainLog(pile)| <= |pile|
    ensures DrainLog(pile) == [] <==> forall i :: 0 <= i < |pile| ==> pile[i].Ok?
    decreases |pile|
  {
    if pile != [] {
      var init := pile[..|pile| - 1];
      DrainLogSilent(init);
      assert forall i :: 0 <= i < |init| ==> init[i] == pile[i];
    }
  }

  /** Each secondary's outcome and final state are those of its own complete attempt. */
  lemma {:induction false} SecondariesAt(remote: seq<Conn>, exec: Conn -> Step, retries: Budget)
    ensures var pile := Secondaries(remote, exec, retries);
      && |pile.results| == |remote| && |pile.conns| == |remote|
      && forall i :: 0 <= i < |remote| ==>
           pile.results[i] == AttemptSpec(remote[i], exec, retries).result
           && pile.conns[i] == AttemptSpec(remote[i], exec, retries).conn
    decreases |remote|
  {
    if remote != [] {
      var init := remote[..|remote| - 1];
      SecondariesAt(init, exec, retries);
      assert forall i :: 0 <= i < |init| ==> init[i] == remote[i];
    }
  }

  /**
   * Runs an executor everywhere.  With no secondaries the primary's attempt is
   * the whole answer.  Otherwise every secondary is attempted with the same
   * executor, the caller gets exactly the primary's value or exception, the
   * primary's `TooManyRetries` is logged, and every secondary outcome is
   * drained before the call returns or raises.
   */
  method RunAll(local: Conn, remote: seq<Conn>, exec: Conn -> Step, retries: Budget)
    returns (r: Result, local': Conn, remote': seq<Conn>, log: seq<LogEvent>)
    ensures Fanned(r, local', remote', log) == FanOutSpec(local, remote, exec, retries)
    ensures var p := AttemptSpec(local, exec, retries);
      r == p.result && local' == p.conn && (remote == [] ==> log == p.log)
    ensures |remote'| == |remote|
    ensures forall i :: 0 <= i < |remote| ==> remote'[i] == AttemptSpec(remote[i], exec, retries).conn
  {
    if remote == [] {
      r, local', log := Attempt(local, exec, retries);
      remote' := [];
      return;
    }
    var plog: seq<LogEvent>;
    r, local', plog := Attempt(local, exec, retries);
    var pile: seq<Result> := [];
    var slog: seq<LogEvent> := [];
    remote' := [];
    var i := 0;
    while i < |remote|
      invariant 0 <= i <= |remote|
      invariant Pile(pile, remote', slog) == Secondaries(remote[..i], exec, retries)
    {
      assert remote[..i + 1][..i] == remote[..i] && remote[..i + 1][i] == remote[i];
      var sr, sc, sl := Attempt(remote[i], exec, retries);
      pile, remote', slog := pile + [sr], remote' + [sc], slog + sl;
      i := i + 1;
    }
    assert remote[..i] == remote;
    log := plog + slog;
    if r.Raise? && r.exc.TooManyRetries? {
      log := log + [Error(r.exc.message)];
    }
    assert log == plog + slog + PrimaryLog(r);
    var drained := WaitPile(pile);
    log := log + drained;
    SecondariesAt(remote, exec, retries);
  }

  /**
   * The caller's outcome is solely the primary's: two calls with the same
   * primary give the same result and the same primary state, whatever the
   * secondaries are and however they fail.
   */
  lemma PrimaryDecides(local: Conn, remote1: seq<Conn>, remote2: seq<Conn>, exec: Conn -> Step, retries: Budget)
    ensures FanOutSpec(local, remote1, exec, retries).result == FanOutSpec(local, remote2, exec, retries).result
    ensures FanOutSpec(local, remote1, exec, retries).local == FanOutSpec(local, remote2, exec, retries).local
  {
  }

  /**
   * The fan-out against its parts: the result and the primary's state are
   * the primary's attempt, each secondary ends in the state its own complete
   * attempt leaves, with no secondaries the log is the primary's alone, and
   * otherwise the secondaries' exhaustion errors are logged and not raised.
   */
  lemma FanOutSemantics(local: Conn, remote: seq<Conn>, exec: Conn -> Step, retries: Budget)
    ensures var f := FanOutSpec(local, remote, exec, retries);
      var p := AttemptSpec(local, exec, retries);
      && f.result == p.result && f.local == p.conn
      && |f.remote| == |remote|
      && (forall i :: 0 <= i < |remote| ==> f.remote[i] == AttemptSpec(remote[i], exec, retries).conn)
      && (remote == [] ==> f.log == p.log)
      && (forall i :: 0 <= i < |remote| ==>
            var s := AttemptSpec(remote[i], exec, retries).result;
            s.Raise? && s.exc.TooManyRetries? ==> Error(s.exc.message) in f.log)
  {
    SecondariesAt(remote, exec, retries);
    var pile := Secondaries(remote, exec, retries);
    forall i | 0 <= i < |remote|
      ensures var s := AttemptSpec(remote[i], exec, retries).result;
        s.Raise? && s.exc.TooManyRetries? ==> Error(s.exc.message) in FanOutSpec(local, remote, exec, retries).log
    {
      DrainLogHas(pile.results, i);
    }
  }

  /** Draining logs each `TooManyRetries` outcome's message as an error. */
  lemma {:induction false} DrainLogHas(pile: seq<Result>, i: nat)
    requires i < |pile|
    ensures pile[i].Raise? && pile[i].exc.TooManyRetries? ==> Error(pile[i].exc.message) in DrainLog(pile)
    decreases |pile|
  {
    if i < |pile| - 1 {
      DrainLogHas(pile[..|pile| - 1], i);
    }
  }
}
