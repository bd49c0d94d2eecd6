/**
 * The clauses the analysis adds about the local heap as a whole: the
 * reachability relation ReachLH(v1, v2) between local pointers, the
 * connected-component filter CFilter, and the entry fact of a method run from
 * the environment.
 */
module HeapRules {
  import opened Wrappers
  import opened JavaInt
  import opened Exprs
  import opened FsEngine
  import opened Classes
  import opened Allocation

  /** `reachLHPred(v1, v2, values, locals)` with empty (all-default) local-heap maps. */
  function ReachLHAtom(v1: Expr, v2: Expr): Expr {
    MapApp(ReachLH, [v1, v2], [map[], map[]])
  }

  /** `cFilterPred(v, b, values, locals, filter)` with empty value and local maps. */
  function CFilterAtom(v: Expr, b: Expr, filter: map<int, Expr>): Expr {
    MapApp(CFilter, [v, b], [map[], map[], filter])
  }

  /** The layout tables cover the numbers 0 .. n-1: each number has a site, and
      the site has an offset and a non-negative size. */
  predicate Ready(a: AllocState, n: int) {
    forall e :: 0 <= e < n ==>
      e in a.reverse && a.reverse[e] in a.offsets && a.reverse[e] in a.sizes && a.sizes[a.reverse[e]] >= 0
  }

  function SiteOf(a: AllocState, n: int, e: int): int
    requires Ready(a, n) && 0 <= e < n
  {
    a.reverse[e]
  }

  /** The induction rule for one local-heap slot of a site: from ReachLH(val,
      vfp) with vfp the site, whose slot holds a local pointer rez, conclude
      ReachLH(val, rez). */
  function ReachRule(inst: int, fieldNum: int, bvSize: int): Expr {
    Implies(And([ReachLHAtom(NamedVar(Val), NamedVar(Vfp)),
                 Eq(NamedVar(Vfp), Bv(inst, bvSize)),
                 Eq(RegVar(LHV, fieldNum), NamedVar(Rez)),
                 RegVar(LHL, fieldNum)]),
            ReachLHAtom(NamedVar(Val), NamedVar(Rez)))
  }

  /** The rules of one site: one per slot of its block, offset .. offset + size. */
  function SiteReachRules(inst: int, offset: int, size: nat, bvSize: int): seq<Expr> {
    seq(size + 1, t => ReachRule(inst, offset + t, bvSize))
  }

  /** The induction rules of the sites numbered 0 .. n-1, in order. */
  function ReachRules(a: AllocState, n: nat, bvSize: int): seq<Expr>
    requires Ready(a, n)
  {
    if n == 0 then []
    else
      var inst := a.reverse[n - 1];
      ReachRules(a, n - 1, bvSize) + SiteReachRules(inst, a.offsets[inst], a.sizes[inst], bvSize)
  }

  /** The blocks of the sites numbered 0 .. n-1: fields plus one each. */
  function Blocks(a: AllocState, n: nat): nat
    requires Ready(a, n)
  {
    if n == 0 then 0 else Blocks(a, n - 1) + a.sizes[a.reverse[n - 1]] + 1
  }

  /** There is one induction rule per slot of every block. */
  lemma {:induction false} ReachRulesLength(a: AllocState, n: nat, bvSize: int)
    requires Ready(a, n)
    ensures |ReachRules(a, n, bvSize)| == Blocks(a, n)
  {
    if n > 0 {
      ReachRulesLength(a, n - 1, bvSize);
    }
  }

  /** Every slot of every site's block has its induction rule. */
  lemma {:induction false} ReachRuleForSlot(a: AllocState, n: nat, bvSize: int, e: int, t: int)
    requires Ready(a, n)
    requires 0 <= e < n && 0 <= t <= a.sizes[a.reverse[e]]
    ensures ReachRule(a.reverse[e], a.offsets[a.reverse[e]] + t, bvSize) in ReachRules(a, n, bvSize)
  {
    var inst := a.reverse[n - 1];
    var site := SiteReachRules(inst, a.offsets[inst], a.sizes[inst], bvSize);
    if e == n - 1 {
      assert site[t] == ReachRule(inst, a.offsets[inst] + t, bvSize);
    } else {
      ReachRuleForSlot(a, n - 1, bvSize, e, t);
    }
  }

  /** Right after the layout is computed, the tables cover every kept site. */
  lemma AllocateReady(a0: AllocState, classes: map<int, GeneralClass>, ks: seq<DalvikInstance>)
    requires a0.itNumber == 0
    ensures Ready(Allocate(a0, classes, ks), |ks|)
  {
    var a := Allocate(a0, classes, ks);
    forall e | 0 <= e < |ks|
      ensures e in a.reverse && a.reverse[e] in a.offsets && a.reverse[e] in a.sizes && a.sizes[a.reverse[e]] >= 0
    {
      AllocateReverse(a0, classes, ks, e);
      AllocateHasSite(a0, classes, ks, e);
      AllocateSizeNat(a0, classes, ks, e);
    }
  }

  /** The size recorded for a kept site is a field count, whatever the
      collisions (the last site with the hash wins). */
  lemma {:induction false} AllocateSizeNat(a0: AllocState, classes: map<int, GeneralClass>,
                                           ks: seq<DalvikInstance>, k: int)
    requires 0 <= k < |ks|
    ensures var a := Allocate(a0, classes, ks);
      ks[k].hash in a.sizes && a.sizes[ks[k].hash] >= 0
  {
    var init := ks[..|ks| - 1];
    if k < |ks| - 1 && ks[|ks| - 1].hash != ks[k].hash {
      AllocateSizeNat(a0, classes, init, k);
      assert init[k] == ks[k];
    }
  }

  /** With distinct site hashes, the blocks of the first m sites span exactly
      the slots the layout loop counted for them. */
  lemma {:induction false} BlocksIsSpan(a0: AllocState, classes: map<int, GeneralClass>,
                                        ks: seq<DalvikInstance>, m: nat)
    requires a0.itNumber == 0 && DistinctHashes(ks) && m <= |ks|
    ensures Ready(Allocate(a0, classes, ks), m)
    ensures Blocks(Allocate(a0, classes, ks), m) == Span(classes, ks[..m])
  {
    var a := Allocate(a0, classes, ks);
    AllocateReady(a0, classes, ks);
    ReadyPrefix(a, |ks|, m);
    if m > 0 {
      BlocksIsSpan(a0, classes, ks, m - 1);
      AllocateSizeAt(a0, classes, ks, m - 1);
      SpanStep(classes, ks, m - 1);
      BlocksStep(a, m);
    }
  }

  lemma ReadyPrefix(a: AllocState, n: int, m: int)
    requires Ready(a, n) && m <= n
    ensures Ready(a, m)
  {
  }

  lemma BlocksStep(a: AllocState, m: nat)
    requires Ready(a, m) && m > 0
    ensures Ready(a, m - 1) && Blocks(a, m) == Blocks(a, m - 1) + a.sizes[a.reverse[m - 1]] + 1
  {
  }

  /** `generateReachLHRules` adds 1 + Σ (size + 1) rules: as many induction
      rules as the local heap has slots. */
  lemma ReachRuleCount(a0: AllocState, classes: map<int, GeneralClass>, ks: seq<DalvikInstance>, bvSize: int)
    requires a0.itNumber == 0 && a0.offset == 0 && DistinctHashes(ks)
    ensures var a := Allocate(a0, classes, ks);
      Ready(a, |ks|) && |[ReachLHAtom(NamedVar(Val), NamedVar(Val))] + ReachRules(a, |ks|, bvSize)| == 1 + a.offset
  {
    var a := Allocate(a0, classes, ks);
    BlocksIsSpan(a0, classes, ks, |ks|);
    ReachRulesLength(a, |ks|, bvSize);
    AllocateCounters(a0, classes, ks);
    assert ks[..|ks|] == ks;
  }

  /** The filter marking the slots 0 .. n-1 false. */
  function FalseFilter(n: int): map<int, Expr> {
    Fill(0, n, False)
  }

  /** The base rule: CFilter(val, bf) holds with an all-false filter. */
  function CFilterBase(lhSize: int): Expr {
    CFilterAtom(NamedVar(Val), NamedVar(Bf), FalseFilter(lhSize))
  }

  /** The rule of one site: its block offset .. offset + size is in the filter
      when the site is reachable from val and bf holds. */
  function CFilterRule(inst: int, offset: int, size: int, bvSize: int): Expr {
    var h := And([ReachLHAtom(NamedVar(Val), NamedVar(Vfp)),
                  CFilterAtom(NamedVar(Val), NamedVar(Bf), map[]),
                  NamedVar(Bf)]);
    Implies(And([h, Eq(NamedVar(Vfp), Bv(inst, bvSize))]),
            CFilterAtom(NamedVar(Val), NamedVar(Bf), Fill(offset, offset + size + 1, True)))
  }

  /** One filter rule per site numbered 0 .. n-1, in order. */
  function CFilterRules(a: AllocState, n: nat, bvSize: int): (rs: seq<Expr>)
    requires Ready(a, n)
    ensures |rs| == n
  {
    if n == 0 then []
    else
      var inst := a.reverse[n - 1];
      CFilterRules(a, n - 1, bvSize) + [CFilterRule(inst, a.offsets[inst], a.sizes[inst], bvSize)]
  }

  /** The e-th filter rule is the rule of the site numbered e. */
  lemma {:induction false} CFilterRuleOfSite(a: AllocState, n: nat, bvSize: int, e: int)
    requires Ready(a, n) && 0 <= e < n
    ensures var inst := a.reverse[e];
      CFilterRules(a, n, bvSize)[e] == CFilterRule(inst, a.offsets[inst], a.sizes[inst], bvSize)
  {
    if e < n - 1 {
      CFilterRuleOfSite(a, n - 1, bvSize, e);
    }
  }

  /** A site's filter rule marks exactly the slots of its block and marks them true. */
  lemma CFilterRuleMarksBlock(inst: int, offset: int, size: int, bvSize: int, slot: int)
    ensures var filter := CFilterRule(inst, offset, size, bvSize).head.maps[2];
      (slot in filter <==> offset <= slot <= offset + size)
      && (slot in filter ==> filter[slot] == True)
  {
    FillLookup(offset, offset + size + 1, True, slot);
  }

  /** The register and local-heap overrides of the entry fact `addToMain`
      adds: registers below numRegCall - regCount are (0, false, false, false);
      the high and local components of registers 0 .. numRegCall + regCount
      are false; in the flow-sensitive mode every local-heap slot is
      (0, false, false, false, false). The non-flow-sensitive mode sets no
      local component and no local-heap slot. */
  function MainEntryUpdates(numRegCall: int, regCount: int, lhSize: int, bvSize: int, nfs: bool): Updates {
    var n1, n2 := numRegCall - regCount, numRegCall + regCount;
    var zeros, falses := Fill(0, n1, Bv(0, bvSize)), Fill(0, n1, False);
    // the union of the two loops' ranges 0 .. n1-1 and 0 .. n2
    var hl := Fill(0, if n1 > n2 + 1 then n1 else n2 + 1, False);
    if nfs then
      Updates(zeros, hl, map[], falses, NoHeap)
    else
      Updates(zeros, hl, hl, falses,
              HeapMaps(Fill(0, lhSize, Bv(0, bvSize)), FalseFilter(lhSize), FalseFilter(lhSize),
                       FalseFilter(lhSize), FalseFilter(lhSize)))
  }

  /** Register i of the four register blocks of `a` holds ev, eh, el, eg. */
  function RegArgsAre(a: seq<Expr>, size: nat, i: int, ev: Expr, eh: Expr, el: Expr, eg: Expr): bool
    requires 0 <= i < size && 4 * size <= |a|
  {
    a[i] == ev && a[size + i] == eh && a[2 * size + i] == el && a[3 * size + i] == eg
  }

  /** The registers of the flow-sensitive entry fact: the value of register i
      is 0 below numRegCall - regCount and the register variable above; its
      high and local components are false; its global component is false
      below numRegCall - regCount. */
  lemma MainEntryRegisters(numRegCall: nat, regCount: nat, lhSize: nat, bvSize: int, i: int)
    requires 0 <= i < regCount + numRegCall + 1
    ensures var size := regCount + numRegCall + 1;
      var a := FsArgs(MainEntryUpdates(numRegCall, regCount, lhSize, bvSize, false), size, lhSize, Variables);
      var low := i < numRegCall - regCount;
      |a| == 4 * size + 5 * lhSize
      && RegArgsAre(a, size, i, if low then Bv(0, bvSize) else RegVar(V, i), False, False,
                    if low then False else RegVar(G, i))
  {
    var u := MainEntryUpdates(numRegCall, regCount, lhSize, bvSize, false);
    var size := regCount + numRegCall + 1;
    var n1, n2 := numRegCall - regCount, numRegCall + regCount;
    var top := if n1 > n2 + 1 then n1 else n2 + 1;
    MainEntryRegisterMaps(numRegCall, regCount, lhSize, bvSize);
    FillArg(0, n1, Bv(0, bvSize), i, RegVar(V, i));
    FillArg(0, n1, False, i, RegVar(G, i));
    FillArg(0, top, False, i, RegVar(H, i));
    FillArg(0, top, False, i, RegVar(L, i));
    var low := i < n1;
    FilledRegArgs(u, size, lhSize, Variables, i, if low then Bv(0, bvSize) else RegVar(V, i), False, False,
                  if low then False else RegVar(G, i));
  }

  /** The register arguments are the map entries or their defaults. */
  lemma FilledRegArgs(u: Updates, size: nat, lhSize: nat, d: Defaults, i: int, ev: Expr, eh: Expr, el: Expr, eg: Expr)
    requires 0 <= i < size
    requires ArgOr(u.v, i, Default(d, V, i)) == ev && ArgOr(u.h, i, Default(d, H, i)) == eh
    requires ArgOr(u.l, i, Default(d, L, i)) == el && ArgOr(u.g, i, Default(d, G, i)) == eg
    ensures var a := FsArgs(u, size, lhSize, d);
      |a| == 4 * size + 5 * lhSize && RegArgsAre(a, size, i, ev, eh, el, eg)
  {
    FsArgsRegisters(u, size, lhSize, d, i);
  }

  /** The register maps of the flow-sensitive entry fact. */
  lemma MainEntryRegisterMaps(numRegCall: nat, regCount: nat, lhSize: nat, bvSize: int)
    ensures var u := MainEntryUpdates(numRegCall, regCount, lhSize, bvSize, false);
      var n1, n2 := numRegCall - regCount, numRegCall + regCount;
      var hl := Fill(0, if n1 > n2 + 1 then n1 else n2 + 1, False);
      u.v == Fill(0, n1, Bv(0, bvSize)) && u.g == Fill(0, n1, False) && u.h == hl && u.l == hl
  {
  }

  /** Slot j of the five local-heap blocks of `a` holds `ev`, then four
      times `eb`. */
  predicate HeapArgsAre(a: seq<Expr>, size: nat, lhSize: nat, j: int, ev: Expr, eb: Expr)
    requires 0 <= j < lhSize && |a| == 4 * size + 5 * lhSize
  {
    a[4 * size + j] == ev
    && a[4 * size + lhSize + j] == eb && a[4 * size + 2 * lhSize + j] == eb
    && a[4 * size + 3 * lhSize + j] == eb && a[4 * size + 4 * lhSize + j] == eb
  }

  /** Every local-heap slot of the flow-sensitive entry fact is 0 and false. */
  lemma MainEntryHeap(numRegCall: nat, regCount: nat, lhSize: nat, bvSize: int, j: int)
    requires 0 <= j < lhSize
    ensures var size := regCount + numRegCall + 1;
      var a := FsArgs(MainEntryUpdates(numRegCall, regCount, lhSize, bvSize, false), size, lhSize, Variables);
      |a| == 4 * size + 5 * lhSize && HeapArgsAre(a, size, lhSize, j, Bv(0, bvSize), False)
  {
    var u := MainEntryUpdates(numRegCall, regCount, lhSize, bvSize, false);
    MainEntryHeapMaps(numRegCall, regCount, lhSize, bvSize);
    FilledHeapArgs(u, regCount + numRegCall + 1, lhSize, Variables, j, Bv(0, bvSize), False);
  }

  /** The heap maps of the flow-sensitive entry fact: 0 and false up to lhSize. */
  lemma MainEntryHeapMaps(numRegCall: nat, regCount: nat, lhSize: nat, bvSize: int)
    ensures var u := MainEntryUpdates(numRegCall, regCount, lhSize, bvSize, false);
      u.lh.v == Fill(0, lhSize, Bv(0, bvSize))
      && u.lh.h == Fill(0, lhSize, False) && u.lh.l == Fill(0, lhSize, False)
      && u.lh.g == Fill(0, lhSize, False) && u.lh.f == Fill(0, lhSize, False)
  {
  }

  /** The local-heap arguments of maps filled with `ev` and four times `eb`. */
  lemma FilledHeapArgs(u: Updates, size: nat, lhSize: nat, d: Defaults, j: int, ev: Expr, eb: Expr)
    requires 0 <= j < lhSize && ev != Null && eb != Null
    requires u.lh.v == Fill(0, lhSize, ev)
    requires u.lh.h == Fill(0, lhSize, eb) && u.lh.l == Fill(0, lhSize, eb)
    requires u.lh.g == Fill(0, lhSize, eb) && u.lh.f == Fill(0, lhSize, eb)
    ensures var a := FsArgs(u, size, lhSize, d);
      |a| == 4 * size + 5 * lhSize && HeapArgsAre(a, size, lhSize, j, ev, eb)
  {
    FillArg(0, lhSize, ev, j, Default(d, LHV, j));
    FillArg(0, lhSize, eb, j, Default(d, LHH, j));
    FillArg(0, lhSize, eb, j, Default(d, LHL, j));
    FillArg(0, lhSize, eb, j, Default(d, LHG, j));
    FillArg(0, lhSize, eb, j, Default(d, LHF, j));
    FsArgsHeap(u, size, lhSize, d, j);
  }
}
