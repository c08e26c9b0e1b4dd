/**
 * Name routing of the proxy: an attribute name ending in `_everywhere` is
 * split at its last underscore and the operation before it is replicated to
 * every destination; any other name is looked up on the primary alone.
 */
module Routing {

  /** The word after the last underscore of a replicated name; it holds no underscore. */
  const Word := "everywhere"
  const Suffix := "_" + Word

  predicate EndsWith(s: string, suffix: string) {
    |suffix| <= |s| && s[|s| - |suffix|..] == suffix
  }

  /** The index of the last occurrence of `ch` in `s`, or -1 when there is none. */
  function LastIndex(s: string, ch: char): (k: int)
    ensures -1 <= k < |s|
    ensures k >= 0 ==> s[k] == ch
    ensures forall j :: k < j < |s| ==> s[j] != ch
    decreases |s|
  {
    if |s| == 0 then -1
    else if s[|s| - 1] == ch then |s| - 1
    else LastIndex(s[..|s| - 1], ch)
  }

  /** Where an attribute name leads. */
  datatype Route =
    | Everywhere(op: string)     // replicate `op` through run_everywhere
    | PassThrough(op: string)    // the primary's own attribute
    | Missing(name: string)      // AttributeError for `name`, before any destination is called

  /** Splitting a name that ends in `_everywhere` at its last underscore leaves the part before the suffix. */
  lemma SplitAtSuffix(name: string)
    requires EndsWith(name, Suffix)
    ensures LastIndex(name, '_') == |name| - |Suffix|
    ensures name[..|name| - |Suffix|] + Suffix == name
  {
    var n := |name| - |Suffix|;
    assert name[n..] == ['_'] + Word by {
      assert Suffix == ['_'] + Word;
    }
    assert forall m :: 0 <= m < |Word| ==> Word[m] != '_' by {
      WordHasNoUnderscore();
    }
    SplitBefore(name, n, Word);
  }

  /** A string that ends in an underscore followed by a word without one is last split there. */
  lemma SplitBefore(s: string, n: nat, w: string)
    requires n < |s| && s[n..] == ['_'] + w
    requires forall m :: 0 <= m < |w| ==> w[m] != '_'
    ensures LastIndex(s, '_') == n
    ensures s[..n] + (['_'] + w) == s
  {
    assert s[..n] + s[n..] == s;
    forall j | n < j < |s|
      ensures s[j] != '_'
    {
      assert s[j] == s[n..][j - n] == w[j - n - 1];
    }
    assert s[n] == s[n..][0];
    LastIndexAt(s, '_', n);
  }

  lemma WordHasNoUnderscore()
    ensures forall m :: 0 <= m < |Word| ==> Word[m] != '_'
  {
  }

  /** The last occurrence is the one with no occurrence after it. */
  lemma LastIndexAt(s: string, ch: char, k: nat)
    requires k < |s| && s[k] == ch
    requires forall j :: k < j < |s| ==> s[j] != ch
    ensures LastIndex(s, ch) == k
  {
  }

  /**
   * Resolves an attribute name against the operations the primary offers,
   * the way the proxy's attribute hook does.
   */
  function Resolve(name: string, ops: set<string>): (r: Route)
    ensures r.Everywhere? ==> EndsWith(name, Suffix) && name == r.op + Suffix && r.op in ops
    ensures r.PassThrough? ==> !EndsWith(name, Suffix) && r.op == name && name in ops
    ensures r.Missing? ==> r.name !in ops
    ensures r.Missing? ==> if EndsWith(name, Suffix) then name == r.name + Suffix else name == r.name
  {
    if EndsWith(name, Suffix) then
      SplitAtSuffix(name);
      var op := name[..LastIndex(name, '_')];
      if op in ops then Everywhere(op) else Missing(op)
    else if name in ops then PassThrough(name)
    else Missing(name)
  }

  /**
   * `X_everywhere` routes to replicating `X`, where `X` is everything before
   * the final underscore, and fails when the primary has no operation `X`.
   */
  lemma EverywhereRoute(op: string, ops: set<string>)
    ensures Resolve(op + Suffix, ops) == if op in ops then Everywhere(op) else Missing(op)
  {
    var name := op + Suffix;
    assert name[|name| - |Suffix|..] == Suffix;
    SplitAtSuffix(name);
    assert name[..|name| - |Suffix|] == op;
  }

  /** A name without the suffix goes to the primary only, or fails when the primary lacks it. */
  lemma PlainRoute(name: string, ops: set<string>)
    requires !EndsWith(name, Suffix)
    ensures Resolve(name, ops) == if name in ops then PassThrough(name) else Missing(name)
  {
  }

  /**
   * `pipeline_everywhere` is not special: it routes to replicating the
   * single operation `pipeline` with the caller's arguments, not to the
   * pipeline executor.
   */
  lemma PipelineEverywhereRoute(ops: set<string>)
    ensures Resolve("pipeline_everywhere", ops)
            == if "pipeline" in ops then Everywhere("pipeline") else Missing("pipeline")
  {
    assert "pipeline" + Suffix == "pipeline_everywhere";
    EverywhereRoute("pipeline", ops);
  }
}
