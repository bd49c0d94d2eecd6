/**
 * The local-heap layout: every kept allocation site gets a number, in order,
 * and a block of the flat local heap with one slot per field of its class
 * plus one spare slot. Sites allocated in methods without a sink (when the
 * analysis is sink-sensitive) and results of unknown calls are skipped.
 */
module Allocation {
  import opened Wrappers
  import opened JavaInt
  import opened Classes
  import opened Layout

  /** `checkMethodHasSink`: membership of the (class, method) hash in the set
      of methods containing a sink; false when there is no such set. */
  predicate CheckMethodHasSink(methodHasSink: Option<set<int>>, cmHash: int) {
    methodHasSink.Some? && cmHash in methodHasSink.value
  }

  /** The two skip conditions of the allocation loop, negated. */
  predicate Kept(sensIfHasSink: bool, methodHasSink: Option<set<int>>, i: DalvikInstance) {
    !(!CheckMethodHasSink(methodHasSink, i.cmHash) && sensIfHasSink) && i.isNewInstance
  }

  /** The sites the loop does not skip, in iteration order. */
  function KeptList(sensIfHasSink: bool, methodHasSink: Option<set<int>>, insts: seq<DalvikInstance>)
    : (ks: seq<DalvikInstance>)
    ensures |ks| <= |insts|
  {
    if |insts| == 0 then []
    else
      var last := insts[|insts| - 1];
      KeptList(sensIfHasSink, methodHasSink, insts[..|insts| - 1])
        + (if Kept(sensIfHasSink, methodHasSink, last) then [last] else [])
  }

  /** A site is numbered exactly when it is not skipped. */
  lemma {:induction false} KeptListMembers(sensIfHasSink: bool, methodHasSink: Option<set<int>>,
                                           insts: seq<DalvikInstance>, i: DalvikInstance)
    ensures i in KeptList(sensIfHasSink, methodHasSink, insts)
        <==> i in insts && Kept(sensIfHasSink, methodHasSink, i)
  {
    if |insts| > 0 {
      var init := insts[..|insts| - 1];
      KeptListMembers(sensIfHasSink, methodHasSink, init, i);
      assert insts == init + [insts[|insts| - 1]];
    }
  }

  /** One more instance: the kept list grows by it exactly when it is kept. */
  lemma KeptListStep(sensIfHasSink: bool, methodHasSink: Option<set<int>>, insts: seq<DalvikInstance>, n: int)
    requires 0 <= n < |insts|
    ensures KeptList(sensIfHasSink, methodHasSink, insts[..n + 1])
         == KeptList(sensIfHasSink, methodHasSink, insts[..n])
            + (if Kept(sensIfHasSink, methodHasSink, insts[n]) then [insts[n]] else [])
  {
    assert insts[..n + 1][..n] == insts[..n];
  }

  /** The bookkeeping maps of the allocation loop and its two counters. */
  datatype AllocState = AllocState(
    numbers: map<int, int>,   // site hash -> its number
    reverse: map<int, int>,   // number -> site hash
    sizes: map<int, int>,     // site hash -> number of fields
    offsets: map<int, int>,   // site hash -> first slot in the local heap
    classOf: map<int, string>,
    pcs: map<int, int>,
    offset: int,
    itNumber: int)

  /** One iteration for a kept site with `size` fields. */
  function Record(a: AllocState, i: DalvikInstance, size: nat): AllocState {
    a.(numbers := a.numbers[i.hash := a.itNumber],
       reverse := a.reverse[a.itNumber := i.hash],
       sizes := a.sizes[i.hash := size],
       offsets := a.offsets[i.hash := a.offset],
       classOf := a.classOf[i.hash := i.ty],
       pcs := a.pcs[i.hash := i.pc],
       offset := a.offset + size + 1,
       itNumber := a.itNumber + 1)
  }

  /** The loop over the kept sites `ks`, from the state `a0`. */
  function Allocate(a0: AllocState, classes: map<int, GeneralClass>, ks: seq<DalvikInstance>): AllocState {
    if |ks| == 0 then a0
    else
      var last := ks[|ks| - 1];
      Record(Allocate(a0, classes, ks[..|ks| - 1]), last, FieldCount(classes, last.ty))
  }

  /** One more kept site is one more `Record`. */
  lemma AllocateStep(a0: AllocState, classes: map<int, GeneralClass>, ks: seq<DalvikInstance>, i: DalvikInstance)
    ensures Allocate(a0, classes, ks + [i]) == Record(Allocate(a0, classes, ks), i, FieldCount(classes, i.ty))
  {
    assert (ks + [i])[..|ks|] == ks;
  }

  /** One pass of the allocation loop: a kept instance is recorded, a
      skipped one changes nothing. */
  lemma AllocateKeptStep(a0: AllocState, classes: map<int, GeneralClass>, sensIfHasSink: bool,
                         methodHasSink: Option<set<int>>, insts: seq<DalvikInstance>, n: int)
    requires 0 <= n < |insts|
    ensures var st := Allocate(a0, classes, KeptList(sensIfHasSink, methodHasSink, insts[..n]));
      Allocate(a0, classes, KeptList(sensIfHasSink, methodHasSink, insts[..n + 1]))
      == if Kept(sensIfHasSink, methodHasSink, insts[n]) then Record(st, insts[n], FieldCount(classes, insts[n].ty)) else st
  {
    var ks := KeptList(sensIfHasSink, methodHasSink, insts[..n]);
    KeptListStep(sensIfHasSink, methodHasSink, insts, n);
    if Kept(sensIfHasSink, methodHasSink, insts[n]) {
      AllocateStep(a0, classes, ks, insts[n]);
    } else {
      assert ks + [] == ks;
    }
  }

  /** The local-heap slots taken by the sites: fields plus one per site. */
  function Span(classes: map<int, GeneralClass>, ks: seq<DalvikInstance>): nat {
    if |ks| == 0 then 0
    else Span(classes, ks[..|ks| - 1]) + FieldCount(classes, ks[|ks| - 1].ty) + 1
  }

  predicate DistinctHashes(ks: seq<DalvikInstance>) {
    forall j, k :: 0 <= j < k < |ks| ==> ks[j].hash != ks[k].hash
  }

  /** The counters end at the number of kept sites and at the total span. */
  lemma {:induction false} AllocateCounters(a0: AllocState, classes: map<int, GeneralClass>,
                                            ks: seq<DalvikInstance>)
    ensures Allocate(a0, classes, ks).itNumber == a0.itNumber + |ks|
    ensures Allocate(a0, classes, ks).offset == a0.offset + Span(classes, ks)
  {
    if |ks| > 0 {
      AllocateCounters(a0, classes, ks[..|ks| - 1]);
    }
  }

  /** The reverse map sends number `a0.itNumber + k` to the k-th kept site,
      whether or not hashes collide. */
  lemma {:induction false} AllocateReverse(a0: AllocState, classes: map<int, GeneralClass>,
                                           ks: seq<DalvikInstance>, k: int)
    requires 0 <= k < |ks|
    ensures var a := Allocate(a0, classes, ks);
      a0.itNumber + k in a.reverse && a.reverse[a0.itNumber + k] == ks[k].hash
  {
    var init := ks[..|ks| - 1];
    AllocateCounters(a0, classes, init);
    if k < |ks| - 1 {
      AllocateReverse(a0, classes, init, k);
      assert init[k] == ks[k];
    }
  }

  /** Numbers other than those of the kept sites keep their old entries. */
  lemma {:induction false} AllocateReverseKeys(a0: AllocState, classes: map<int, GeneralClass>,
                                               ks: seq<DalvikInstance>, n: int)
    ensures var a := Allocate(a0, classes, ks);
      n in a.reverse <==> n in a0.reverse || a0.itNumber <= n < a0.itNumber + |ks|
  {
    if |ks| > 0 {
      var init := ks[..|ks| - 1];
      AllocateReverseKeys(a0, classes, init, n);
      AllocateCounters(a0, classes, init);
    }
  }

  /** The hashes of the sites. */
  function Hashes(ks: seq<DalvikInstance>): set<int> {
    set k | 0 <= k < |ks| :: ks[k].hash
  }

  lemma HashesStep(ks: seq<DalvikInstance>)
    requires |ks| > 0
    ensures Hashes(ks) == Hashes(ks[..|ks| - 1]) + {ks[|ks| - 1].hash}
  {
    var init := ks[..|ks| - 1];
    forall h | h in Hashes(ks) ensures h in Hashes(init) + {ks[|ks| - 1].hash} {
      var k :| 0 <= k < |ks| && ks[k].hash == h;
      if k < |init| { assert init[k] == ks[k]; }
    }
    forall h | h in Hashes(init) ensures h in Hashes(ks) {
      var k :| 0 <= k < |init| && init[k].hash == h;
      assert ks[k] == init[k];
    }
  }

  /** Each per-site map gains exactly the hashes of the kept sites. */
  lemma {:induction false} AllocateSiteKeys(a0: AllocState, classes: map<int, GeneralClass>,
                                            ks: seq<DalvikInstance>, h: int)
    ensures var a := Allocate(a0, classes, ks);
      (h in a.numbers <==> h in a0.numbers || h in Hashes(ks))
      && (h in a.sizes <==> h in a0.sizes || h in Hashes(ks))
      && (h in a.offsets <==> h in a0.offsets || h in Hashes(ks))
      && (h in a.classOf <==> h in a0.classOf || h in Hashes(ks))
      && (h in a.pcs <==> h in a0.pcs || h in Hashes(ks))
  {
    if |ks| > 0 {
      var init, last := ks[..|ks| - 1], ks[|ks| - 1];
      AllocateSiteKeys(a0, classes, init, h);
      HashesStep(ks);
    }
  }

  /** Every kept site has an entry in every per-site map. */
  lemma AllocateHasSite(a0: AllocState, classes: map<int, GeneralClass>, ks: seq<DalvikInstance>, k: int)
    requires 0 <= k < |ks|
    ensures var a := Allocate(a0, classes, ks);
      var h := ks[k].hash;
      h in a.numbers && h in a.sizes && h in a.offsets && h in a.classOf && h in a.pcs
  {
    AllocateSiteKeys(a0, classes, ks, ks[k].hash);
    assert ks[k].hash in Hashes(ks);
  }

  /** The span of a prefix grows by the site's fields plus one. */
  lemma SpanStep(classes: map<int, GeneralClass>, ks: seq<DalvikInstance>, k: int)
    requires 0 <= k < |ks|
    ensures Span(classes, ks[..k + 1]) == Span(classes, ks[..k]) + FieldCount(classes, ks[k].ty) + 1
  {
    assert ks[..k + 1][..k] == ks[..k];
  }

  lemma {:induction false} SpanMonotone(classes: map<int, GeneralClass>, ks: seq<DalvikInstance>, j: int, k: int)
    requires 0 <= j <= k <= |ks|
    ensures Span(classes, ks[..j]) <= Span(classes, ks[..k])
  {
    if j < k {
      SpanMonotone(classes, ks, j, k - 1);
      SpanStep(classes, ks, k - 1);
    }
  }

  /** With distinct site hashes, the k-th kept site has number k (counting
      from `a0.itNumber`), the reverse map inverts the numbering, its size is
      its class's field count and its offset is the span of the sites before
      it (counting from `a0.offset`). */
  lemma {:induction false} AllocateEntry(a0: AllocState, classes: map<int, GeneralClass>,
                                         ks: seq<DalvikInstance>, k: int)
    requires DistinctHashes(ks)
    requires 0 <= k < |ks|
    ensures var a := Allocate(a0, classes, ks);
      var h := ks[k].hash;
      h in a.numbers && a.numbers[h] == a0.itNumber + k
      && a0.itNumber + k in a.reverse && a.reverse[a.numbers[h]] == h
      && h in a.sizes && a.sizes[h] == FieldCount(classes, ks[k].ty)
      && h in a.offsets && a.offsets[h] == a0.offset + Span(classes, ks[..k])
      && h in a.classOf && a.classOf[h] == ks[k].ty
      && h in a.pcs && a.pcs[h] == ks[k].pc
  {
    AllocateReverse(a0, classes, ks, k);
    AllocateSiteEntry(a0, classes, ks, k);
  }

  /** The number `a0.itNumber + k` names the k-th kept site, whose size is
      its class's field count. */
  lemma AllocateSizeAt(a0: AllocState, classes: map<int, GeneralClass>, ks: seq<DalvikInstance>, k: int)
    requires DistinctHashes(ks)
    requires 0 <= k < |ks|
    ensures var a := Allocate(a0, classes, ks);
      a0.itNumber + k in a.reverse && a.reverse[a0.itNumber + k] == ks[k].hash
      && ks[k].hash in a.sizes && a.sizes[ks[k].hash] == FieldCount(classes, ks[k].ty)
  {
    AllocateReverse(a0, classes, ks, k);
    AllocateSiteEntry(a0, classes, ks, k);
  }

  /** The per-site part of `AllocateEntry`. */
  lemma {:induction false} AllocateSiteEntry(a0: AllocState, classes: map<int, GeneralClass>,
                                             ks: seq<DalvikInstance>, k: int)
    requires DistinctHashes(ks)
    requires 0 <= k < |ks|
    ensures var a := Allocate(a0, classes, ks);
      var h := ks[k].hash;
      h in a.numbers && a.numbers[h] == a0.itNumber + k
      && h in a.sizes && a.sizes[h] == FieldCount(classes, ks[k].ty)
      && h in a.offsets && a.offsets[h] == a0.offset + Span(classes, ks[..k])
      && h in a.classOf && a.classOf[h] == ks[k].ty
      && h in a.pcs && a.pcs[h] == ks[k].pc
  {
    var init, last := ks[..|ks| - 1], ks[|ks| - 1];
    var b := Allocate(a0, classes, init);
    assert Allocate(a0, classes, ks) == Record(b, last, FieldCount(classes, last.ty));
    if k < |ks| - 1 {
      assert init[k] == ks[k];
      assert DistinctHashes(init) by {
        forall j, l | 0 <= j < l < |init| ensures init[j].hash != init[l].hash {
          assert init[j] == ks[j] && init[l] == ks[l];
        }
      }
      AllocateSiteEntry(a0, classes, init, k);
      assert init[..k] == ks[..k];
      RecordOther(b, last, FieldCount(classes, last.ty), ks[k].hash);
    } else {
      AllocateCounters(a0, classes, init);
      assert init == ks[..k];
    }
  }

  /** Recording a site leaves another site's entries as they were. */
  lemma RecordOther(a: AllocState, i: DalvikInstance, size: nat, h: int)
    requires h != i.hash
    requires h in a.numbers && h in a.sizes && h in a.offsets && h in a.classOf && h in a.pcs
    ensures var b := Record(a, i, size);
      h in b.numbers && b.numbers[h] == a.numbers[h]
      && h in b.sizes && b.sizes[h] == a.sizes[h]
      && h in b.offsets && b.offsets[h] == a.offsets[h]
      && h in b.classOf && b.classOf[h] == a.classOf[h]
      && h in b.pcs && b.pcs[h] == a.pcs[h]
  {
  }

  /** With distinct site hashes, the blocks [offset, offset + size] of two
      sites are disjoint, in numbering order. */
  lemma BlocksDisjoint(a0: AllocState, classes: map<int, GeneralClass>, ks: seq<DalvikInstance>, j: int, k: int)
    requires DistinctHashes(ks)
    requires 0 <= j < k < |ks|
    ensures var a := Allocate(a0, classes, ks);
      ks[j].hash in a.offsets && ks[j].hash in a.sizes && ks[k].hash in a.offsets
      && a.offsets[ks[j].hash] + a.sizes[ks[j].hash] < a.offsets[ks[k].hash]
  {
    AllocateEntry(a0, classes, ks, j);
    AllocateEntry(a0, classes, ks, k);
    SpanStep(classes, ks, j);
    SpanMonotone(classes, ks, j + 1, k);
  }

  /** With distinct site hashes and the counters starting at 0, every block
      lies inside the local heap [0, localHeapSize). */
  lemma BlockInHeap(a0: AllocState, classes: map<int, GeneralClass>, ks: seq<DalvikInstance>, k: int)
    requires DistinctHashes(ks)
    requires a0.offset == 0
    requires 0 <= k < |ks|
    ensures var a := Allocate(a0, classes, ks);
      ks[k].hash in a.offsets && ks[k].hash in a.sizes
      && 0 <= a.offsets[ks[k].hash]
      && a.offsets[ks[k].hash] + a.sizes[ks[k].hash] < a.offset
  {
    AllocateEntry(a0, classes, ks, k);
    AllocateCounters(a0, classes, ks);
    SpanStep(classes, ks, k);
    SpanMonotone(classes, ks, k + 1, |ks|);
    assert ks[..|ks|] == ks;
  }
}
