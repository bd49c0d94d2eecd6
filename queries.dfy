/**
 * Sink queries and their compaction: consecutive queries about the same
 * program point and sink are merged into one disjunction before solving.
 */
module Queries {
  import opened Wrappers
  import opened Exprs

  /** What a query's message says: the register and the place of the sink
      call. The message text itself is `DescriptionText`. */
  datatype Description = LeakMessage(reg: int, pc: string, methodName: string, className: string, sinkName: string)

  datatype Query = Query(query: Expr, description: Description, verbose: bool,
                         className: string, methodName: string, pc: string, sinkName: string)

  /** The four fields that decide whether two queries are merged. */
  predicate SameKey(a: Query, b: Query) {
    a.className == b.className && a.methodName == b.methodName
    && a.pc == b.pc && a.sinkName == b.sinkName
  }

  /** Finished queries and the query still being merged into. */
  datatype QueryState = QueryState(queries: seq<Query>, current: Option<Query>)

  /** One `addQuery`: OR into the current query when the key matches, otherwise
      retire the current query (if any) and start a new one. */
  function AddQueryStep(s: QueryState, q: Query): QueryState {
    if s.current.Some? && SameKey(s.current.value, q) then
      QueryState(s.queries, Some(s.current.value.(query := Or([s.current.value.query, q.query]))))
    else
      QueryState(s.queries + (if s.current.Some? then [s.current.value] else []), Some(q))
  }

  /** The list handed to the solver once the current query is flushed. */
  function Flushed(s: QueryState): seq<Query> {
    s.queries + (if s.current.Some? then [s.current.value] else [])
  }

  /** `addQuery` applied to each query of `qs` in turn. */
  function Feed(s: QueryState, qs: seq<Query>): QueryState
    decreases |qs|
  {
    if qs == [] then s else Feed(AddQueryStep(s, qs[0]), qs[1..])
  }

  /** The length of the maximal run of queries at the front of `qs` that share
      the first query's key. */
  function RunLength(qs: seq<Query>): (k: nat)
    requires qs != []
    ensures 1 <= k <= |qs|
    ensures forall j :: 0 <= j < k ==> SameKey(qs[0], qs[j])
    ensures k < |qs| ==> !SameKey(qs[0], qs[k])
    decreases |qs|
  {
    if |qs| == 1 || !SameKey(qs[0], qs[1]) then 1 else 1 + RunLength(qs[1..])
  }

  /** The disjunction a run of queries is merged into, nested to the left. */
  function OrChain(run: seq<Query>): Expr
    requires |run| > 0
    decreases |run|
  {
    if |run| == 1 then run[0].query else Or([OrChain(run[..|run| - 1]), run[|run| - 1].query])
  }

  /** A merged run keeps the first query's description and flags. */
  function MergeRun(run: seq<Query>): Query
    requires |run| > 0
  {
    run[0].(query := OrChain(run))
  }

  /** The reference list: one merged query per maximal run of consecutive
      same-key queries, so that no two neighbours share a key. */
  function Compact(qs: seq<Query>): (c: seq<Query>)
    ensures |c| <= |qs| && (c == [] <==> qs == [])
    ensures c != [] ==> SameKey(c[0], qs[0])
    ensures forall i, j :: 0 <= i && j == i + 1 && j < |c| ==> !SameKey(c[i], c[j])
    decreases |qs|
  {
    if qs == [] then []
    else
      var k := RunLength(qs);
      [MergeRun(qs[..k])] + Compact(qs[k..])
  }

  /** The run length depends on the keys only. */
  lemma {:induction false} RunLengthByKeys(a: seq<Query>, b: seq<Query>)
    requires a != [] && |a| == |b|
    requires forall i :: 0 <= i < |a| ==> SameKey(a[i], b[i])
    ensures RunLength(a) == RunLength(b)
    decreases |a|
  {
    if |a| > 1 && SameKey(a[0], a[1]) {
      RunLengthByKeys(a[1..], b[1..]);
    }
  }

  /** OR-ing the second query into the first does not change the chain. */
  lemma {:induction false} OrChainAbsorb(c: Query, q: Query, xs: seq<Query>)
    ensures OrChain([c, q] + xs) == OrChain([c.(query := Or([c.query, q.query]))] + xs)
    decreases |xs|
  {
    var c' := c.(query := Or([c.query, q.query]));
    if xs != [] {
      var ys := xs[..|xs| - 1];
      OrChainAbsorb(c, q, ys);
      assert ([c, q] + xs)[..|xs| + 1] == [c, q] + ys;
      assert ([c'] + xs)[..|xs|] == [c'] + ys;
    }
  }

  /** A query with the current query's key is absorbed into its run. */
  lemma CompactAbsorb(c: Query, q: Query, rest: seq<Query>)
    requires SameKey(c, q)
    ensures Compact([c, q] + rest) == Compact([c.(query := Or([c.query, q.query]))] + rest)
  {
    var c' := c.(query := Or([c.query, q.query]));
    var cs, bs := [c, q] + rest, [c'] + rest;
    var k := RunLengthAbsorb(c, q, rest);
    assert cs[k + 1..] == bs[k..];
    assert cs[..k + 1] == [c, q] + rest[..k - 1];
    assert bs[..k] == [c'] + rest[..k - 1];
    OrChainAbsorb(c, q, rest[..k - 1]);
    CompactUnfold(cs);
    CompactUnfold(bs);
  }

  /** Absorbing the second query shortens the leading run by one. */
  lemma RunLengthAbsorb(c: Query, q: Query, rest: seq<Query>) returns (k: nat)
    requires SameKey(c, q)
    ensures 1 <= k <= |rest| + 1
    ensures RunLength([c.(query := Or([c.query, q.query]))] + rest) == k
    ensures RunLength([c, q] + rest) == k + 1
  {
    var bs, qr := [c.(query := Or([c.query, q.query]))] + rest, [q] + rest;
    assert forall i :: 0 < i < |bs| ==> bs[i] == qr[i];
    RunLengthByKeys(bs, qr);
    k := RunLength(qr);
    assert ([c, q] + rest)[1..] == qr;
  }

  lemma CompactUnfold(qs: seq<Query>)
    requires qs != []
    ensures Compact(qs) == [MergeRun(qs[..RunLength(qs)])] + Compact(qs[RunLength(qs)..])
  {
  }

  /** A query with another key closes the current query's run. */
  lemma CompactBreak(c: Query, qs: seq<Query>)
    requires qs != [] && !SameKey(c, qs[0])
    ensures Compact([c] + qs) == [c] + Compact(qs)
  {
    var cs := [c] + qs;
    assert cs[..1] == [c];
    assert cs[1..] == qs;
  }

  lemma FeedUnfold(s: QueryState, q: Query, rest: seq<Query>)
    ensures Feed(s, [q] + rest) == Feed(AddQueryStep(s, q), rest)
  {
    var qs := [q] + rest;
    assert qs[0] == q && qs[1..] == rest;
  }

  /** Feeding one more query is one more `addQuery` step. */
  lemma {:induction false} FeedSnoc(s: QueryState, qs: seq<Query>, q: Query)
    ensures Feed(s, qs + [q]) == AddQueryStep(Feed(s, qs), q)
    decreases |qs|
  {
    if qs == [] {
      assert [q][1..] == [];
    } else {
      FeedSnoc(AddQueryStep(s, qs[0]), qs[1..], q);
      assert (qs + [q])[0] == qs[0] && (qs + [q])[1..] == qs[1..] + [q];
    }
  }

  /** Feeding two lists in turn is feeding their concatenation. */
  lemma {:induction false} FeedAppend(s: QueryState, a: seq<Query>, b: seq<Query>)
    ensures Feed(s, a + b) == Feed(Feed(s, a), b)
    decreases |a|
  {
    if a == [] {
      assert a + b == b;
    } else {
      FeedAppend(AddQueryStep(s, a[0]), a[1..], b);
      assert (a + b)[0] == a[0] && (a + b)[1..] == a[1..] + b;
    }
  }

  /** Feeding a prefix one query longer is one more `addQuery` step. */
  lemma FeedPrefix(s: QueryState, qs: seq<Query>, t: int)
    requires 0 <= t < |qs|
    ensures Feed(s, qs[..t + 1]) == AddQueryStep(Feed(s, qs[..t]), qs[t])
  {
    assert qs[..t + 1] == qs[..t] + [qs[t]];
    FeedSnoc(s, qs[..t], qs[t]);
  }

  lemma FeedAbsorb(done: seq<Query>, c: Query, q: Query, rest: seq<Query>)
    requires SameKey(c, q)
    ensures Feed(QueryState(done, Some(c)), [q] + rest)
         == Feed(QueryState(done, Some(c.(query := Or([c.query, q.query])))), rest)
  {
    FeedUnfold(QueryState(done, Some(c)), q, rest);
  }

  lemma FeedBreak(done: seq<Query>, c: Query, q: Query, rest: seq<Query>)
    requires !SameKey(c, q)
    ensures Feed(QueryState(done, Some(c)), [q] + rest) == Feed(QueryState(done + [c], Some(q)), rest)
  {
    FeedUnfold(QueryState(done, Some(c)), q, rest);
    assert AddQueryStep(QueryState(done, Some(c)), q) == QueryState(done + [c], Some(q));
  }

  /** From a state whose current query is `c`, the flushed list is the finished
      list followed by the compaction of `c` and the queries still to come. */
  lemma {:induction false} FeedFromCurrent(done: seq<Query>, c: Query, qs: seq<Query>)
    ensures Flushed(Feed(QueryState(done, Some(c)), qs)) == done + Compact([c] + qs)
    decreases |qs|, 1
  {
    if qs == [] {
      var cs := [c];
      assert cs[..1] == [c] && cs[1..] == [];
    } else {
      var q, rest := qs[0], qs[1..];
      assert qs == [q] + rest;
      if SameKey(c, q) {
        AbsorbCase(done, c, q, rest);
      } else {
        BreakCase(done, c, q, rest);
      }
    }
  }

  lemma {:induction false} AbsorbCase(done: seq<Query>, c: Query, q: Query, rest: seq<Query>)
    requires SameKey(c, q)
    ensures Flushed(Feed(QueryState(done, Some(c)), [q] + rest)) == done + Compact([c] + ([q] + rest))
    decreases |rest| + 1, 0
  {
    var c' := c.(query := Or([c.query, q.query]));
    calc {
      Flushed(Feed(QueryState(done, Some(c)), [q] + rest));
      { FeedAbsorb(done, c, q, rest); }
      Flushed(Feed(QueryState(done, Some(c')), rest));
      { FeedFromCurrent(done, c', rest); }
      done + Compact([c'] + rest);
      { CompactAbsorb(c, q, rest); }
      done + Compact([c, q] + rest);
      { assert [c] + ([q] + rest) == [c, q] + rest; }
      done + Compact([c] + ([q] + rest));
    }
  }

  lemma {:induction false} BreakCase(done: seq<Query>, c: Query, q: Query, rest: seq<Query>)
    requires !SameKey(c, q)
    ensures Flushed(Feed(QueryState(done, Some(c)), [q] + rest)) == done + Compact([c] + ([q] + rest))
    decreases |rest| + 1, 0
  {
    calc {
      Flushed(Feed(QueryState(done, Some(c)), [q] + rest));
      { FeedBreak(done, c, q, rest); }
      Flushed(Feed(QueryState(done + [c], Some(q)), rest));
      { FeedFromCurrent(done + [c], q, rest); }
      (done + [c]) + Compact([q] + rest);
      done + ([c] + Compact([q] + rest));
      { CompactBreak(c, [q] + rest); }
      done + Compact([c] + ([q] + rest));
    }
  }

  /** Query compaction: feeding a sequence of queries to `addQuery` and
      flushing leaves exactly one merged query per maximal same-key run. */
  lemma QueryCompaction(qs: seq<Query>)
    ensures Flushed(Feed(QueryState([], None), qs)) == Compact(qs)
  {
    if qs != [] {
      assert AddQueryStep(QueryState([], None), qs[0]) == QueryState([], Some(qs[0]));
      FeedFromCurrent([], qs[0], qs[1..]);
      assert [qs[0]] + qs[1..] == qs;
    }
  }

  /** Queries that all share one key are merged into a single query. */
  lemma SameKeyRunMerges(qs: seq<Query>)
    requires qs != []
    requires forall i :: 0 <= i < |qs| ==> SameKey(qs[0], qs[i])
    ensures Compact(qs) == [MergeRun(qs)]
  {
    RunLengthUniform(qs);
    assert qs[..|qs|] == qs;
  }

  lemma {:induction false} RunLengthUniform(qs: seq<Query>)
    requires qs != []
    requires forall i :: 0 <= i < |qs| ==> SameKey(qs[0], qs[i])
    ensures RunLength(qs) == |qs|
    decreases |qs|
  {
    if |qs| > 1 {
      RunLengthUniform(qs[1..]);
    }
  }
}
