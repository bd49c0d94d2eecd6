/**
 * The analysis object: the app's classes, the local-heap layout it computes
 * for the allocation sites, and the heap rules and entry facts it hands to
 * the flow-sensitive engine.
 */
module AnalysisCore {
  import opened Wrappers
  import opened JavaInt
  import opened Exprs
  import opened FsEngine
  import opened Classes
  import opened Layout
  import opened Allocation
  import opened HeapRules

  /** The outcome of `getFieldOffset`: the field's position among the class's
      fields, the exception for a field the class does not have, or the null
      dereference when the site or its class fields are unknown. */
  datatype FieldOffset = Offset(index: nat) | FieldMissing | NullPointer

  /** `classFieldsMapping`: position i maps to the i-th smallest key. */
  method ClassFieldsMapping(inputMap: map<int, bool>) returns (result: map<int, int>)
    ensures forall i :: i in result <==> 0 <= i < |inputMap|
    ensures forall i :: 0 <= i < |inputMap| ==> result[i] in inputMap
    ensures forall k :: k in inputMap ==> exists i :: 0 <= i < |inputMap| && result[i] == k
    ensures forall i, j :: 0 <= i < j < |inputMap| ==> result[i] < result[j]
  {
    var list := SortedKeys(inputMap.Keys);
    assert |list| == |inputMap| by { MapCardIsKeysCard(inputMap); }
    result := PositionMap(list);
    forall k | k in inputMap
      ensures exists i :: 0 <= i < |inputMap| && result[i] == k
    {
      var i :| 0 <= i < |list| && list[i] == k;
      assert result[i] == k;
    }
  }

  /** The loop of `classFieldsMapping`: position i maps to list[i]. */
  method PositionMap(list: seq<int>) returns (result: map<int, int>)
    ensures forall i :: i in result <==> 0 <= i < |list|
    ensures forall i :: 0 <= i < |list| ==> result[i] == list[i]
  {
    result := map[];
    var i := 0;
    while i < |list|
      invariant 0 <= i <= |list|
      invariant forall j :: j in result ==> 0 <= j < i
      invariant forall j :: 0 <= j < i ==> j in result && result[j] == list[j]
    {
      result := result[i := list[i]];
      i := i + 1;
    }
  }

  lemma MapCardIsKeysCard(m: map<int, bool>)
    ensures |m| == |m.Keys|
  {
  }

  /** The prefix sums of the instructions' code units. */
  function CodeAddress(units: seq<nat>, k: nat): nat
    requires k <= |units|
  {
    if k == 0 then 0 else CodeAddress(units, k - 1) + units[k - 1]
  }

  /** The loop of `processClass` that hands every instruction its code
      address: the sum of the code units of the instructions before it. */
  method CodeAddresses(units: seq<nat>) returns (addrs: seq<nat>)
    ensures |addrs| == |units|
    ensures forall k :: 0 <= k < |units| ==> addrs[k] == CodeAddress(units, k)
  {
    addrs := [];
    var codeAddress := 0;
    var k := 0;
    while k < |units|
      invariant 0 <= k <= |units| && |addrs| == k
      invariant codeAddress == CodeAddress(units, k)
      invariant forall j :: 0 <= j < k ==> addrs[j] == CodeAddress(units, j)
    {
      addrs := addrs + [codeAddress];
      codeAddress := codeAddress + units[k];
      k := k + 1;
    }
  }

  /** The next instruction starts where this one's code units end, and the
      addresses are non-decreasing. */
  lemma {:induction false} CodeAddressesChain(units: seq<nat>, j: nat, k: nat)
    requires j <= k < |units|
    ensures CodeAddress(units, k + 1) == CodeAddress(units, k) + units[k]
    ensures CodeAddress(units, j) <= CodeAddress(units, k)
  {
    if j < k {
      CodeAddressesChain(units, j, k - 1);
    }
  }

  /** `mkLabel`: class hash, method hash and program counter, separated by underscores. */
  function MkLabel(c: GeneralClass, m: DalvikMethod, pc: int): string {
    JoinLabel(StringHash(c.ty), StringHash(m.name), pc)
  }

  function JoinLabel(x: int, y: int, z: int): string {
    IntToString(x) + "_" + IntToString(y) + "_" + IntToString(z)
  }

  lemma NoUnderscore(n: int)
    ensures '_' !in IntToString(n)
  {
    var s := IntToString(n);
    if n < 0 {
      assert forall i :: 1 <= i < |s| ==> s[i] == NatToString(-n)[i - 1];
    }
  }

  lemma UnderscoreFirst(a: string, b: string)
    requires '_' !in a
    ensures forall i :: 0 <= i < |a| ==> (a + "_" + b)[i] != '_'
    ensures (a + "_" + b)[|a|] == '_'
  {
    assert forall i :: 0 <= i < |a| ==> (a + "_" + b)[i] == a[i];
  }

  lemma {:induction false} SplitAtUnderscore(a: string, b: string, c: string, d: string)
    requires '_' !in a && '_' !in c
    requires a + "_" + b == c + "_" + d
    ensures a == c && b == d
  {
    var x := a + "_" + b;
    UnderscoreFirst(a, b);
    UnderscoreFirst(c, d);
    assert a == x[..|a|];
    assert c == (c + "_" + d)[..|c|];
    assert b == x[|a| + 1..];
    assert d == (c + "_" + d)[|c| + 1..];
  }

  /** Labels are unique per (class hash, method hash, pc). */
  lemma MkLabelInjective(c1: GeneralClass, m1: DalvikMethod, pc1: int, c2: GeneralClass, m2: DalvikMethod, pc2: int)
    ensures MkLabel(c1, m1, pc1) == MkLabel(c2, m2, pc2)
        <==> StringHash(c1.ty) == StringHash(c2.ty) && StringHash(m1.name) == StringHash(m2.name) && pc1 == pc2
  {
    JoinLabelInjective(StringHash(c1.ty), StringHash(m1.name), pc1, StringHash(c2.ty), StringHash(m2.name), pc2);
  }

  lemma JoinLabelInjective(x1: int, y1: int, z1: int, x2: int, y2: int, z2: int)
    ensures JoinLabel(x1, y1, z1) == JoinLabel(x2, y2, z2) <==> x1 == x2 && y1 == y2 && z1 == z2
  {
    var a1, b1, p1 := IntToString(x1), IntToString(y1), IntToString(z1);
    var a2, b2, p2 := IntToString(x2), IntToString(y2), IntToString(z2);
    assert JoinLabel(x1, y1, z1) == a1 + "_" + (b1 + "_" + p1);
    assert JoinLabel(x2, y2, z2) == a2 + "_" + (b2 + "_" + p2);
    if JoinLabel(x1, y1, z1) == JoinLabel(x2, y2, z2) {
      NoUnderscore(x1);
      NoUnderscore(x2);
      NoUnderscore(y1);
      NoUnderscore(y2);
      SplitAtUnderscore(a1, b1 + "_" + p1, a2, b2 + "_" + p2);
      SplitAtUnderscore(b1, p1, b2, p2);
      IntToStringInjective(x1, x2);
      IntToStringInjective(y1, y2);
      IntToStringInjective(z1, z2);
    }
  }

  /** The counters restart at 0; the maps keep what they held. */
  function Start(a: AllocState): AllocState {
    a.(offset := 0, itNumber := 0)
  }

  /** The loop of `initializeAllocationMapping`, from the tables of `a0`
      and counters at zero. */
  method AllocationLoop(classes: map<int, GeneralClass>, sensIfHasSink: bool, methodHasSink: Option<set<int>>,
                        a0: AllocState, insts: seq<DalvikInstance>) returns (a: AllocState)
    requires a0.offset == 0 && a0.itNumber == 0
    ensures a == Allocate(a0, classes, KeptList(sensIfHasSink, methodHasSink, insts))
  {
    a := a0;
    var n := 0;
    while n < |insts|
      invariant 0 <= n <= |insts|
      invariant a == Allocate(a0, classes, KeptList(sensIfHasSink, methodHasSink, insts[..n]))
    {
      AllocateKeptStep(a0, classes, sensIfHasSink, methodHasSink, insts, n);
      a := AllocationPass(classes, sensIfHasSink, methodHasSink, a, insts[n]);
      n := n + 1;
    }
    assert insts[..|insts|] == insts;
  }

  /** One pass of that loop: a skipped site changes nothing; a kept one
      gets the next number and the next block of the local heap, one slot
      per field of its class and one more. */
  method AllocationPass(classes: map<int, GeneralClass>, sensIfHasSink: bool, methodHasSink: Option<set<int>>,
                        a: AllocState, i: DalvikInstance) returns (b: AllocState)
    ensures b == if Kept(sensIfHasSink, methodHasSink, i) then Record(a, i, FieldCount(classes, i.ty)) else a
  {
    b := a;
    if ((!CheckMethodHasSink(methodHasSink, i.cmHash)) && sensIfHasSink) || !i.isNewInstance {
      return;
    }
    var instanceNum := i.hash;
    var referenceString := i.ty;
    var fieldsMap := ClassFields(classes, referenceString);
    var fields := if fieldsMap.Some? then fieldsMap.value else map[];
    b := b.(classOf := b.classOf[instanceNum := referenceString],
            pcs := b.pcs[instanceNum := i.pc],
            numbers := b.numbers[instanceNum := b.itNumber],
            reverse := b.reverse[b.itNumber := instanceNum],
            sizes := b.sizes[instanceNum := |fields|],
            offsets := b.offsets[instanceNum := b.offset]);
    b := b.(offset := b.offset + |fields| + 1, itNumber := b.itNumber + 1);
  }

  class Analysis {
    const classes: map<int, GeneralClass>
    const sensIfHasSink: bool
    const methodHasSink: Option<set<int>>
    const nfsanalysis: bool
    const bvSize: int
    const fsengine: FSEngine

    var allocationPointNumbers: map<int, int>
    var allocationPointNumbersReverse: map<int, int>
    var allocationPointSize: map<int, int>
    var allocationPointOffset: map<int, int>
    var allocationPointClass: map<int, string>
    var allocationPointPC: map<int, int>
    var localHeapNumberEntries: int
    var localHeapSize: int

    /** The layout tables and counters as one value. */
    function View(): AllocState
      reads this
    {
      AllocState(allocationPointNumbers, allocationPointNumbersReverse, allocationPointSize,
                 allocationPointOffset, allocationPointClass, allocationPointPC,
                 localHeapSize, localHeapNumberEntries)
    }

    /** The tables cover the numbered sites. */
    predicate LayoutReady()
      reads this
    {
      0 <= localHeapNumberEntries && Ready(View(), localHeapNumberEntries)
    }

    constructor (classes: map<int, GeneralClass>, sensIfHasSink: bool, methodHasSink: Option<set<int>>,
                 nfsanalysis: bool, bvSize: int, fsengine: FSEngine)
      ensures this.classes == classes && this.sensIfHasSink == sensIfHasSink
      ensures this.methodHasSink == methodHasSink && this.nfsanalysis == nfsanalysis
      ensures this.bvSize == bvSize && this.fsengine == fsengine
      ensures View() == AllocState(map[], map[], map[], map[], map[], map[], 0, 0)
    {
      this.classes := classes;
      this.sensIfHasSink := sensIfHasSink;
      this.methodHasSink := methodHasSink;
      this.nfsanalysis := nfsanalysis;
      this.bvSize := bvSize;
      this.fsengine := fsengine;
      allocationPointNumbers := map[];
      allocationPointNumbersReverse := map[];
      allocationPointSize := map[];
      allocationPointOffset := map[];
      allocationPointClass := map[];
      allocationPointPC := map[];
      localHeapNumberEntries := 0;
      localHeapSize := 0;
    }

    /** `getClassFields`, DalvikClass branch: the fields' name hashes in
        declaration order, each marked primitive or not. */
    method GetClassFields(className: string) returns (r: Option<map<int, bool>>)
      ensures r == ClassFields(classes, className)
    {
      var result: map<int, bool> := map[];
      var ci := StringHash(className);
      if ci in classes && classes[ci].DalvikClass? {
        var fields := classes[ci].fields;
        var i := 0;
        while i < |fields|
          invariant 0 <= i <= |fields|
          invariant result == FieldsMap(fields[..i])
        {
          var fieldName := fields[i].name;
          var prim := IsPrimitiveName(fieldName);
          result := result[StringHash(fieldName) := prim];
          assert fields[..i + 1][..i] == fields[..i];
          i := i + 1;
        }
        assert fields[..|fields|] == fields;
      }
      if result == map[] {
        r := None;
      } else {
        r := Some(result);
      }
    }

    /** `getFieldOffset`: the number of the site's class fields with a
        smaller hash, which is the field's position in ascending order. */
    method GetFieldOffset(allocationPoint: int, fieldIntReference: int) returns (r: FieldOffset)
      ensures allocationPoint !in allocationPointClass ==> r == NullPointer
      ensures allocationPoint in allocationPointClass ==>
        var fm := ClassFields(classes, allocationPointClass[allocationPoint]);
        (fm.None? ==> r == NullPointer)
        && (fm.Some? && fieldIntReference !in fm.value ==> r == FieldMissing)
        && (fm.Some? && fieldIntReference in fm.value ==>
              r.Offset? && r.index == |set x | x in fm.value.Keys && x < fieldIntReference|
              && r.index < |fm.value.Keys| && SortedKeys(fm.value.Keys)[r.index] == fieldIntReference)
    {
      if allocationPoint !in allocationPointClass {
        return NullPointer;
      }
      var fm := GetClassFields(allocationPointClass[allocationPoint]);
      if fm.None? {
        return NullPointer;
      }
      var fields := SortedKeys(fm.value.Keys);
      var i := 0;
      while i < |fields|
        invariant 0 <= i <= |fields|
        invariant forall j :: 0 <= j < i ==> fields[j] != fieldIntReference
      {
        if fields[i] == fieldIntReference {
          RankIsCountOfSmaller(fm.value.Keys, i);
          return Offset(i);
        }
        i := i + 1;
      }
      return FieldMissing;
    }

    /** Stores the tables and counters of `a`. */
    method SetView(a: AllocState)
      modifies this`allocationPointNumbers, this`allocationPointNumbersReverse, this`allocationPointSize,
               this`allocationPointOffset, this`allocationPointClass, this`allocationPointPC,
               this`localHeapNumberEntries, this`localHeapSize
      ensures View() == a
    {
      allocationPointNumbers, allocationPointNumbersReverse, allocationPointSize := a.numbers, a.reverse, a.sizes;
      allocationPointOffset, allocationPointClass, allocationPointPC := a.offsets, a.classOf, a.pcs;
      localHeapSize := a.offset;
      localHeapNumberEntries := a.itNumber;
    }

    /** `initializeAllocationMapping`: numbers the kept sites in iteration
        order and gives each a block of the local heap; the tables then
        cover every numbered site. `insts` is the set of instances, joined
        with the stub instances when the stubs option is on, in the order
        the loop visits it. */
    method InitializeAllocationMapping(insts: seq<DalvikInstance>)
      modifies this`allocationPointNumbers, this`allocationPointNumbersReverse, this`allocationPointSize,
               this`allocationPointOffset, this`allocationPointClass, this`allocationPointPC,
               this`localHeapNumberEntries, this`localHeapSize
      ensures View() == Allocate(Start(old(View())), classes, KeptList(sensIfHasSink, methodHasSink, insts))
      ensures LayoutReady()
    {
      ghost var ks := KeptList(sensIfHasSink, methodHasSink, insts);
      var a0 := Start(View());
      var a := AllocationLoop(classes, sensIfHasSink, methodHasSink, a0, insts);
      SetView(a);
      AllocateReady(a0, classes, ks);
      AllocateCounters(a0, classes, ks);
    }

    /** `generateReachLHRules`: the base fact ReachLH(val, val), then one
        induction rule per slot of every site's block. */
    method GenerateReachLHRules()
      requires LayoutReady()
      modifies fsengine`mRules
      ensures fsengine.mRules == old(fsengine.mRules) + [ReachLHAtom(NamedVar(Val), NamedVar(Val))]
                                 + ReachRules(View(), localHeapNumberEntries, bvSize)
    {
      ghost var base := old(fsengine.mRules) + [ReachLHAtom(NamedVar(Val), NamedVar(Val))];
      fsengine.AddRule(ReachLHAtom(NamedVar(Val), NamedVar(Val)));
      var h := ReachLHAtom(NamedVar(Val), NamedVar(Vfp));
      var entry := 0;
      while entry < localHeapNumberEntries
        invariant 0 <= entry <= localHeapNumberEntries
        invariant fsengine.mRules == base + ReachRules(View(), entry, bvSize)
      {
        var instanceNum := allocationPointNumbersReverse[entry];
        var offset := allocationPointOffset[instanceNum];
        var entrySize := allocationPointSize[instanceNum];
        ghost var before := fsengine.mRules;
        ghost var site := SiteReachRules(instanceNum, offset, entrySize, bvSize);
        var fieldNum := offset;
        while fieldNum <= offset + entrySize
          invariant offset <= fieldNum <= offset + entrySize + 1
          invariant fsengine.mRules == before + site[..fieldNum - offset]
        {
          var hh := And([h, Eq(NamedVar(Vfp), Bv(instanceNum, bvSize)),
                         Eq(RegVar(LHV, fieldNum), NamedVar(Rez)), RegVar(LHL, fieldNum)]);
          var b := ReachLHAtom(NamedVar(Val), NamedVar(Rez));
          fsengine.AddRule(Implies(hh, b));
          assert Implies(hh, b) == ReachRule(instanceNum, offset + (fieldNum - offset), bvSize) == site[fieldNum - offset];
          assert site[..fieldNum - offset + 1] == site[..fieldNum - offset] + [site[fieldNum - offset]];
          fieldNum := fieldNum + 1;
        }
        assert site[..fieldNum - offset] == site;
        entry := entry + 1;
      }
    }

    /** `generatesCFilter`: the base fact with an all-false filter, then one
        rule per site marking its block. */
    method GeneratesCFilter()
      requires LayoutReady()
      modifies fsengine`mRules
      ensures fsengine.mRules == old(fsengine.mRules) + [CFilterBase(localHeapSize)]
                                 + CFilterRules(View(), localHeapNumberEntries, bvSize)
    {
      var lHFilter: map<int, Expr> := map[];
      var i := 0;
      while i < localHeapSize
        invariant 0 <= i <= (if localHeapSize > 0 then localHeapSize else 0)
        invariant lHFilter == Fill(0, i, False)
      {
        lHFilter := lHFilter[i := False];
        i := i + 1;
      }
      assert lHFilter == FalseFilter(localHeapSize) by {
        if localHeapSize < 0 { assert lHFilter == map[]; }
      }
      fsengine.AddRule(CFilterAtom(NamedVar(Val), NamedVar(Bf), lHFilter));
      lHFilter := map[];
      ghost var base := old(fsengine.mRules) + [CFilterBase(localHeapSize)];
      var h := And([ReachLHAtom(NamedVar(Val), NamedVar(Vfp)),
                    CFilterAtom(NamedVar(Val), NamedVar(Bf), lHFilter),
                    NamedVar(Bf)]);
      var entry := 0;
      while entry < localHeapNumberEntries
        invariant 0 <= entry <= localHeapNumberEntries
        invariant lHFilter == map[]
        invariant fsengine.mRules == base + CFilterRules(View(), entry, bvSize)
      {
        var instanceNum := allocationPointNumbersReverse[entry];
        var offset := allocationPointOffset[instanceNum];
        var entrySize := allocationPointSize[instanceNum];
        var hh := And([h, Eq(NamedVar(Vfp), Bv(instanceNum, bvSize))]);
        var fieldNum := offset;
        while fieldNum <= offset + entrySize
          invariant offset <= fieldNum <= offset + entrySize + 1
          invariant lHFilter == Fill(offset, fieldNum, True)
        {
          lHFilter := lHFilter[fieldNum := True];
          fieldNum := fieldNum + 1;
        }
        var b := CFilterAtom(NamedVar(Val), NamedVar(Bf), lHFilter);
        fsengine.AddRule(Implies(hh, b));
        lHFilter := map[];
        entry := entry + 1;
      }
    }

    /** `addToMain`: the entry fact of a method called from the environment,
        at program point 0 of the method. */
    method AddToMain(dc: GeneralClass, methodIndex: int, numRegCall: nat, regCount: nat)
      modifies fsengine`mRules
      ensures fsengine.mRules == old(fsengine.mRules)
        + [FsRPred(IntToString(StringHash(dc.ty)), IntToString(methodIndex), 0,
                   MainEntryUpdates(numRegCall, regCount, localHeapSize, bvSize, nfsanalysis),
                   regCount, numRegCall, fsengine.localHeapSize)]
    {
      var classIndex := StringHash(dc.ty);
      var regUpV: map<int, Expr>, regUpH: map<int, Expr>, regUpL: map<int, Expr>, regUpG: map<int, Expr> := map[], map[], map[], map[];
      var regUpLHV: map<int, Expr>, regUpLHH: map<int, Expr>, regUpLHL: map<int, Expr> := map[], map[], map[];
      var regUpLHG: map<int, Expr>, regUpLHF: map<int, Expr> := map[], map[];
      var n1, n2 := numRegCall - regCount, numRegCall + regCount;
      var i := 0;
      while i < n1
        invariant 0 <= i <= (if n1 > 0 then n1 else 0)
        invariant regUpV == Fill(0, i, Bv(0, bvSize)) && regUpH == Fill(0, i, False) && regUpG == Fill(0, i, False)
        invariant regUpL == (if nfsanalysis then map[] else Fill(0, i, False))
      {
        regUpV := regUpV[i := Bv(0, bvSize)];
        regUpH := regUpH[i := False];
        if !nfsanalysis { regUpL := regUpL[i := False]; }
        regUpG := regUpG[i := False];
        i := i + 1;
      }
      var top := if n1 > 0 then n1 else 0;
      assert i == top;
      i := 0;
      while i <= n2
        invariant 0 <= i <= n2 + 1
        invariant fsengine.mRules == old(fsengine.mRules)
        invariant regUpH == Fill(0, if top > i then top else i, False)
        invariant regUpL == (if nfsanalysis then map[] else Fill(0, if top > i then top else i, False))
      {
        FillExtend(0, if top > i then top else i, False, i);
        regUpH := regUpH[i := False];
        if !nfsanalysis { regUpL := regUpL[i := False]; }
        i := i + 1;
      }
      if !nfsanalysis {
        i := 0;
        while i < localHeapSize
          invariant 0 <= i <= (if localHeapSize > 0 then localHeapSize else 0)
          invariant regUpLHV == Fill(0, i, Bv(0, bvSize)) && regUpLHH == Fill(0, i, False)
          invariant regUpLHL == Fill(0, i, False) && regUpLHG == Fill(0, i, False) && regUpLHF == Fill(0, i, False)
        {
          regUpLHV := regUpLHV[i := Bv(0, bvSize)];
          regUpLHH := regUpLHH[i := False];
          regUpLHL := regUpLHL[i := False];
          regUpLHG := regUpLHG[i := False];
          regUpLHF := regUpLHF[i := False];
          i := i + 1;
        }
        assert regUpLHV == Fill(0, localHeapSize, Bv(0, bvSize)) && regUpLHF == Fill(0, localHeapSize, False) by {
          if localHeapSize < 0 { assert i == 0; }
        }
      }
      assert (if top > n2 + 1 then top else n2 + 1) == (if n1 > n2 + 1 then n1 else n2 + 1);
      var u := Updates(regUpV, regUpH, regUpL, regUpG, HeapMaps(regUpLHV, regUpLHH, regUpLHL, regUpLHG, regUpLHF));
      assert u == MainEntryUpdates(numRegCall, regCount, localHeapSize, bvSize, nfsanalysis);
      var h := FsRPred(IntToString(classIndex), IntToString(methodIndex), 0, u, regCount, numRegCall,
                       fsengine.localHeapSize);
      assert h == FsRPred(IntToString(StringHash(dc.ty)), IntToString(methodIndex), 0,
                   MainEntryUpdates(numRegCall, regCount, localHeapSize, bvSize, nfsanalysis),
                   regCount, numRegCall, fsengine.localHeapSize);
      fsengine.AddRule(h);
    }

    /** The flow-sensitive set-up of the local heap: the layout, handed to the
        engine, then the reachability and filter rules. */
    method PrepareLocalHeap(insts: seq<DalvikInstance>)
      modifies this`allocationPointNumbers, this`allocationPointNumbersReverse, this`allocationPointSize,
               this`allocationPointOffset, this`allocationPointClass, this`allocationPointPC,
               this`localHeapNumberEntries, this`localHeapSize
      modifies fsengine`initialized, fsengine`localHeapSize, fsengine`offsets, fsengine`sizes, fsengine`mRules
      ensures !nfsanalysis ==>
        View() == Allocate(Start(old(View())), classes, KeptList(sensIfHasSink, methodHasSink, insts))
        && LayoutReady()
        && fsengine.initialized && fsengine.offsets == allocationPointOffset && fsengine.sizes == allocationPointSize
        && fsengine.localHeapSize == localHeapSize
        && fsengine.mRules == old(fsengine.mRules)
             + [ReachLHAtom(NamedVar(Val), NamedVar(Val))] + ReachRules(View(), localHeapNumberEntries, bvSize)
             + [CFilterBase(localHeapSize)] + CFilterRules(View(), localHeapNumberEntries, bvSize)
    {
      if !nfsanalysis {
        InitializeAllocationMapping(insts);
        AllocateCounters(Start(old(View())), classes, KeptList(sensIfHasSink, methodHasSink, insts));
        fsengine.Initialize(localHeapSize, allocationPointOffset, allocationPointSize);
        GenerateReachLHRules();
        GeneratesCFilter();
      }
    }
  }
}
