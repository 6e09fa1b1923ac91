/**
 * How the handler scopes a real handler with a context of groups and
 * attributes, on the live path (handler.go:77-86) and on the drain path
 * (handler.go:148-157), and what a drain emits.
 */
module Scope {
  import opened Wrappers
  import opened Slog
  import opened Ring

  /** Applies WithGroup once per name, the first name outermost (handler.go:80-82). */
  function ScopeGroups(s: Sink, groups: seq<string>): Sink
    decreases |groups|
  {
    if groups == [] then s else Group(ScopeGroups(s, groups[..|groups| - 1]), groups[|groups| - 1])
  }

  /** The group names a sink nests record keys under, outermost first. */
  function GroupPath(s: Sink): seq<string>
  {
    match s
    case Base(_) => []
    case Group(inner, name) => GroupPath(inner) + [name]
    case Attrs(inner, _) => GroupPath(inner)
  }

  /** The base handler a sink was derived from. */
  function Origin(s: Sink): nat
  {
    match s
    case Base(id) => id
    case Group(inner, _) => Origin(inner)
    case Attrs(inner, _) => Origin(inner)
  }

  /**
   * Scoping by a list of groups nests keys under exactly those groups, in
   * order, innermost last, on the same base handler.
   */
  lemma {:induction false} ScopeGroupsPath(s: Sink, groups: seq<string>)
    ensures GroupPath(ScopeGroups(s, groups)) == GroupPath(s) + groups
    ensures Origin(ScopeGroups(s, groups)) == Origin(s)
    decreases |groups|
  {
    if groups != [] {
      var init := groups[..|groups| - 1];
      ScopeGroupsPath(s, init);
      assert init + [groups[|groups| - 1]] == groups;
    }
  }

  /** Scoping by `a` then by `b` is scoping by `a + b`. */
  lemma {:induction false} ScopeGroupsAppend(s: Sink, a: seq<string>, b: seq<string>)
    ensures ScopeGroups(s, a + b) == ScopeGroups(ScopeGroups(s, a), b)
    decreases |b|
  {
    if b == [] {
      assert a + b == a;
    } else {
      var init := b[..|b| - 1];
      ScopeGroupsAppend(s, a, init);
      assert (a + b)[..|a + b| - 1] == a + init;
    }
  }

  /** The elements of a slice; a nil slice has none. */
  function AttrsOf(attrs: Option<seq<Attr>>): seq<Attr>
  {
    if attrs.Some? then attrs.value else []
  }

  /** Live path: groups in order, then the attributes whenever the slice is non-nil (handler.go:79-85). */
  function LiveScope(s: Sink, groups: seq<string>, attrs: Option<seq<Attr>>): Sink
  {
    var g := ScopeGroups(s, groups);
    if attrs.Some? then Attrs(g, attrs.value) else g
  }

  /** Drain path: the record's groups in order, then its attributes when there are any (handler.go:149-155). */
  function DrainScope(s: Sink, rec: BufferedRecord): Sink
  {
    var g := ScopeGroups(s, rec.groups);
    if |AttrsOf(rec.attrs)| > 0 then Attrs(g, AttrsOf(rec.attrs)) else g
  }

  /**
   * A buffered record is replayed with the context it would have had on the
   * live path, except when the context's attribute slice is non-nil but
   * empty: the live path then still calls WithAttrs, the drain path does not.
   */
  lemma DrainMatchesLive(s: Sink, r: Record, attrs: Option<seq<Attr>>, groups: seq<string>)
    ensures DrainScope(s, BufferedRecord(r, attrs, groups)) == LiveScope(s, groups, attrs)
            <==> attrs != Some([])
  {
    var g := ScopeGroups(s, groups);
    if attrs == Some([]) {
      assert LiveScope(s, groups, attrs) == Attrs(g, []);
      assert DrainScope(s, BufferedRecord(r, attrs, groups)) == g;
    }
  }

  /** The emissions of a drain of `recs` into `s`, in buffer order (handler.go:148-157). */
  function Replay(s: Sink, recs: seq<BufferedRecord>): seq<Emission>
    decreases |recs|
  {
    if recs == [] then []
    else
      var last := recs[|recs| - 1];
      Replay(s, recs[..|recs| - 1]) + [Emission(DrainScope(s, last), last.record)]
  }

  /** True when the real handler fails on the k-th drained record. */
  predicate FailsAt(outcome: (Sink, Record) -> Option<Error>, s: Sink, recs: seq<BufferedRecord>, k: nat)
    requires k < |recs|
  {
    outcome(DrainScope(s, recs[k]), recs[k].record).Some?
  }

  /** The errors a drain collects, in order, without stopping at the first (handler.go:156). */
  function Failures(outcome: (Sink, Record) -> Option<Error>, s: Sink, recs: seq<BufferedRecord>): seq<Error>
    decreases |recs|
  {
    if recs == [] then []
    else
      var last := recs[|recs| - 1];
      var errs := Failures(outcome, s, recs[..|recs| - 1]);
      match outcome(DrainScope(s, last), last.record)
      case Some(e) => errs + [e]
      case None => errs
  }

  /** A drain emits every buffered record once, in buffer order, each with its own captured context. */
  lemma {:induction false} ReplayInOrder(s: Sink, recs: seq<BufferedRecord>)
    ensures |Replay(s, recs)| == |recs|
    ensures forall k | 0 <= k < |recs| :: Replay(s, recs)[k] == Emission(DrainScope(s, recs[k]), recs[k].record)
    decreases |recs|
  {
    if recs != [] {
      var init := recs[..|recs| - 1];
      ReplayInOrder(s, init);
      forall k | 0 <= k < |recs| - 1
        ensures Replay(s, recs)[k] == Emission(DrainScope(s, recs[k]), recs[k].record)
      {
        assert recs[k] == init[k];
      }
    }
  }

  /** The aggregate error is non-nil exactly when some drained record failed. */
  lemma {:induction false} FailuresIffSomeFailed(outcome: (Sink, Record) -> Option<Error>, s: Sink, recs: seq<BufferedRecord>)
    ensures |Failures(outcome, s, recs)| > 0 <==> exists k | 0 <= k < |recs| :: FailsAt(outcome, s, recs, k)
    ensures |Failures(outcome, s, recs)| <= |recs|
    decreases |recs|
  {
    if recs != [] {
      var init := recs[..|recs| - 1];
      FailuresIffSomeFailed(outcome, s, init);
      forall k | 0 <= k < |init|
        ensures FailsAt(outcome, s, init, k) <==> FailsAt(outcome, s, recs, k)
      {
        assert init[k] == recs[k];
      }
      var n := |recs| - 1;
      assert recs[n] == recs[|recs| - 1];
      if FailsAt(outcome, s, recs, n) {
        assert |Failures(outcome, s, recs)| == |Failures(outcome, s, init)| + 1;
      } else {
        assert Failures(outcome, s, recs) == Failures(outcome, s, init);
        if exists k | 0 <= k < |recs| :: FailsAt(outcome, s, recs, k) {
          var k :| 0 <= k < |recs| && FailsAt(outcome, s, recs, k);
          assert k < |init| && FailsAt(outcome, s, init, k);
        }
      }
    }
  }
}
