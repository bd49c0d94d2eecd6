/**
 * The work list of (class, method name) pairs the analysis goes through,
 * with the classes already added and the (class hash, method hash) pairs
 * already scheduled.
 */
module Pool {
  import opened Wrappers
  import opened JavaInt
  import opened Classes

  /** The pool, the classes added to it and the scheduled pairs. */
  datatype PoolState = PoolState(pool: seq<(GeneralClass, string)>, added: set<GeneralClass>, processCM: set<CMPair>)

  /** The pair identifying a pool entry. */
  function EntryPair(e: (GeneralClass, string)): CMPair {
    CMPair(StringHash(e.0.ty), StringHash(e.1))
  }

  /** Every pool entry's pair is scheduled. */
  predicate Covered(s: PoolState) {
    forall k :: 0 <= k < |s.pool| ==> EntryPair(s.pool[k]) in s.processCM
  }

  /** The entries of a class's methods, in declaration order. */
  function MethodEntries(c: GeneralClass): (es: seq<(GeneralClass, string)>)
    ensures c.DalvikClass? ==> |es| == |c.methods|
    ensures c.DalvikClass? ==> forall k :: 0 <= k < |es| ==> es[k] == (c, c.methods[k].name)
    ensures !c.DalvikClass? ==> es == []
  {
    if c.DalvikClass? then seq(|c.methods|, k requires 0 <= k < |c.methods| => (c, c.methods[k].name)) else []
  }

  /** The pairs of a class's methods. */
  function MethodPairs(c: GeneralClass): set<CMPair> {
    if c.DalvikClass? then set k | 0 <= k < |c.methods| :: CMPair(StringHash(c.ty), StringHash(c.methods[k].name))
    else {}
  }

  /** `addClassFromApk`: a class not yet added is added, and, for an app
      class, each of its methods is enqueued and scheduled. */
  function ClassStep(s: PoolState, cp: Option<GeneralClass>): PoolState {
    if cp.Some? && cp.value !in s.added then
      PoolState(s.pool + MethodEntries(cp.value), s.added + {cp.value}, s.processCM + MethodPairs(cp.value))
    else s
  }

  /** A class is added at most once: adding it again changes nothing. */
  lemma ClassStepIdempotent(s: PoolState, cp: Option<GeneralClass>)
    ensures ClassStep(ClassStep(s, cp), cp) == ClassStep(s, cp)
    ensures cp.Some? ==> cp.value in ClassStep(s, cp).added
  {
  }

  /** Adding a class keeps every pool entry scheduled. */
  lemma {:induction false} ClassStepCovered(s: PoolState, cp: Option<GeneralClass>)
    requires Covered(s)
    ensures Covered(ClassStep(s, cp))
  {
    if cp.Some? && cp.value !in s.added {
      var c := cp.value;
      var t := ClassStep(s, cp);
      forall k | 0 <= k < |t.pool| ensures EntryPair(t.pool[k]) in t.processCM {
        if k >= |s.pool| {
          var j := k - |s.pool|;
          assert t.pool[k] == MethodEntries(c)[j] == (c, c.methods[j].name);
          assert EntryPair(t.pool[k]) in MethodPairs(c);
        } else {
          assert t.pool[k] == s.pool[k];
        }
      }
    }
  }

  /** `addToPool` over the entries of the dispatch result, in iteration
      order: an entry whose pair is not yet scheduled is scheduled and
      enqueued. */
  function EntriesStep(s: PoolState, entries: seq<(GeneralClass, DalvikMethod)>): PoolState {
    if |entries| == 0 then s
    else
      var t := EntriesStep(s, entries[..|entries| - 1]);
      var e := entries[|entries| - 1];
      var cmp := CMPair(StringHash(e.0.ty), StringHash(e.1.name));
      if cmp !in t.processCM then PoolState(t.pool + [(e.0, e.1.name)], t.added, t.processCM + {cmp})
      else t
  }

  /** The pairs of the entries. */
  function EntryPairs(entries: seq<(GeneralClass, DalvikMethod)>): set<CMPair> {
    set k | 0 <= k < |entries| :: CMPair(StringHash(entries[k].0.ty), StringHash(entries[k].1.name))
  }

  /** A null map changes nothing. */
  function PoolStep(s: PoolState, cmMap: Option<seq<(GeneralClass, DalvikMethod)>>): PoolState {
    if cmMap.Some? then EntriesStep(s, cmMap.value) else s
  }

  /** `t` extends the pool of `s` by entries whose pairs were not scheduled
      in `s`, are pairwise distinct and are scheduled in `t`. */
  predicate FreshTail(s: PoolState, t: PoolState) {
    |s.pool| <= |t.pool| && t.pool[..|s.pool|] == s.pool
    && (forall k :: |s.pool| <= k < |t.pool| ==> EntryPair(t.pool[k]) !in s.processCM)
    && (forall j, k :: |s.pool| <= j < k < |t.pool| ==> EntryPair(t.pool[j]) != EntryPair(t.pool[k]))
    && (forall k :: |s.pool| <= k < |t.pool| ==> EntryPair(t.pool[k]) in t.processCM)
  }

  /** Enqueueing and scheduling an entry with a new pair keeps the tail fresh. */
  lemma FreshTailStep(s: PoolState, t: PoolState, x: (GeneralClass, string))
    requires FreshTail(s, t) && s.processCM <= t.processCM && EntryPair(x) !in t.processCM
    ensures FreshTail(s, PoolState(t.pool + [x], t.added, t.processCM + {EntryPair(x)}))
  {
    var u := PoolState(t.pool + [x], t.added, t.processCM + {EntryPair(x)});
    assert u.pool[..|s.pool|] == t.pool[..|s.pool|];
    assert u.pool[|t.pool|] == x;
    forall k | |s.pool| <= k < |t.pool| ensures u.pool[k] == t.pool[k] && EntryPair(t.pool[k]) in t.processCM {
    }
  }

  lemma EntryPairsStep(entries: seq<(GeneralClass, DalvikMethod)>)
    requires |entries| > 0
    ensures var e := entries[|entries| - 1];
      EntryPairs(entries) == EntryPairs(entries[..|entries| - 1]) + {CMPair(StringHash(e.0.ty), StringHash(e.1.name))}
  {
    var init := entries[..|entries| - 1];
    var e := entries[|entries| - 1];
    var cmp := CMPair(StringHash(e.0.ty), StringHash(e.1.name));
    forall p | p in EntryPairs(entries) ensures p in EntryPairs(init) + {cmp} {
      var k :| 0 <= k < |entries| && p == CMPair(StringHash(entries[k].0.ty), StringHash(entries[k].1.name));
      if k < |init| { assert init[k] == entries[k]; }
    }
    forall p | p in EntryPairs(init) ensures p in EntryPairs(entries) {
      var k :| 0 <= k < |init| && p == CMPair(StringHash(init[k].0.ty), StringHash(init[k].1.name));
      assert entries[k] == init[k];
    }
  }

  /** After `addToPool` every entry's pair is scheduled, and the pool grows
      only by entries whose pair was new, each pair at most once; the added
      classes do not change. */
  lemma {:induction false} EntriesStepFacts(s: PoolState, entries: seq<(GeneralClass, DalvikMethod)>)
    ensures var t := EntriesStep(s, entries);
      t.processCM == s.processCM + EntryPairs(entries) && t.added == s.added && FreshTail(s, t)
  {
    if |entries| > 0 {
      var init := entries[..|entries| - 1];
      EntriesStepFacts(s, init);
      EntryPairsStep(entries);
      var t := EntriesStep(s, init);
      var e := entries[|entries| - 1];
      if CMPair(StringHash(e.0.ty), StringHash(e.1.name)) !in t.processCM {
        FreshTailStep(s, t, (e.0, e.1.name));
      }
    } else {
      assert s.pool[..|s.pool|] == s.pool;
    }
  }

  /** `addToPool` keeps every pool entry scheduled. */
  lemma PoolStepCovered(s: PoolState, cmMap: Option<seq<(GeneralClass, DalvikMethod)>>)
    requires Covered(s)
    ensures Covered(PoolStep(s, cmMap))
  {
    if cmMap.Some? {
      var t := PoolStep(s, cmMap);
      EntriesStepFacts(s, cmMap.value);
      forall k | 0 <= k < |t.pool| ensures EntryPair(t.pool[k]) in t.processCM {
        if k < |s.pool| {
          assert t.pool[k] == t.pool[..|s.pool|][k] == s.pool[k];
        }
      }
    }
  }

  /** The work list object of the class/method gathering phase. */
  class WorkPool {
    var pool: seq<(GeneralClass, string)>
    var addedInPool: set<GeneralClass>
    var processCM: set<CMPair>

    function View(): PoolState
      reads this
    {
      PoolState(pool, addedInPool, processCM)
    }

    constructor ()
      ensures View() == PoolState([], {}, {})
    {
      pool := [];
      addedInPool := {};
      processCM := {};
    }

    method AddClassFromApk(cp: Option<GeneralClass>)
      modifies this`pool, this`addedInPool, this`processCM
      ensures View() == ClassStep(old(View()), cp)
    {
      if cp.Some? && cp.value !in addedInPool {
        var c := cp.value;
        addedInPool := addedInPool + {c};
        if c.DalvikClass? {
          ghost var pool0, cm0 := pool, processCM;
          var k := 0;
          while k < |c.methods|
            invariant 0 <= k <= |c.methods|
            invariant addedInPool == old(addedInPool) + {c}
            invariant pool == pool0 + MethodEntries(c)[..k]
            invariant processCM == cm0 + set j | 0 <= j < k :: CMPair(StringHash(c.ty), StringHash(c.methods[j].name))
          {
            var m := c.methods[k];
            pool := pool + [(c, m.name)];
            processCM := processCM + {CMPair(StringHash(c.ty), StringHash(m.name))};
            assert MethodEntries(c)[..k + 1] == MethodEntries(c)[..k] + [(c, m.name)];
            assert (set j | 0 <= j < k + 1 :: CMPair(StringHash(c.ty), StringHash(c.methods[j].name)))
                == (set j | 0 <= j < k :: CMPair(StringHash(c.ty), StringHash(c.methods[j].name)))
                   + {CMPair(StringHash(c.ty), StringHash(m.name))};
            k := k + 1;
          }
          assert MethodEntries(c)[..k] == MethodEntries(c);
          assert (set j | 0 <= j < k :: CMPair(StringHash(c.ty), StringHash(c.methods[j].name))) == MethodPairs(c);
        }
      }
    }

    method AddToPool(cmMap: Option<seq<(GeneralClass, DalvikMethod)>>)
      modifies this`pool, this`processCM
      ensures View() == PoolStep(old(View()), cmMap)
    {
      if cmMap.Some? {
        var entries := cmMap.value;
        ghost var s0 := View();
        var k := 0;
        while k < |entries|
          invariant 0 <= k <= |entries|
          invariant View() == EntriesStep(s0, entries[..k])
        {
          var e := entries[k];
          var cmp := CMPair(StringHash(e.0.ty), StringHash(e.1.name));
          assert entries[..k + 1][..k] == entries[..k];
          if cmp !in processCM {
            processCM := processCM + {cmp};
            pool := pool + [(e.0, e.1.name)];
          }
          k := k + 1;
        }
        assert entries[..k] == entries;
      }
    }
  }
}
