/**
 * Call marshalling: the register operands of an invoke instruction, the
 * labels of its arguments, the maps that carry the arguments into the
 * callee's registers and its results back, and the sink queries asking
 * whether an argument is secret.
 *
 * An invoke names its arguments either as up to five registers C, D, E,
 * F, G (the first `count` of them are used) or as a range of `count`
 * consecutive registers from `start`.
 */
module Calls {
  import opened Wrappers
  import opened JavaInt
  import opened Exprs
  import opened Queries
  import opened Guards
  import opened FsEngine

  datatype FiveRegs = FiveRegs(count: int, c: int, d: int, e: int, f: int, g: int)

  datatype RangeRegs = RangeRegs(start: int, count: int)

  datatype CallRegs = Five(five: FiveRegs) | Range(range: RangeRegs)

  /** Register C, D, E, F or G for k = 0 .. 4. */
  function FiveArg(ins: FiveRegs, k: int): int
    requires 0 <= k < 5
  {
    if k == 0 then ins.c else if k == 1 then ins.d else if k == 2 then ins.e else if k == 3 then ins.f else ins.g
  }

  /** The number of registers a five-register form uses: its count when
      that is 1 .. 5, none otherwise. */
  function ArgCount(ins: FiveRegs): (n: nat)
    ensures n <= 5
    ensures 1 <= ins.count <= 5 ==> n == ins.count
    ensures !(1 <= ins.count <= 5) ==> n == 0
  {
    if 1 <= ins.count <= 5 then ins.count else 0
  }

  /** The argument registers in the order C, D, E, F, G. */
  function Args(ins: FiveRegs): (rs: seq<int>)
    ensures |rs| == ArgCount(ins)
    ensures forall k :: 0 <= k < |rs| ==> rs[k] == FiveArg(ins, k)
  {
    [ins.c, ins.d, ins.e, ins.f, ins.g][..ArgCount(ins)]
  }

  /** The variables of one kind of the registers `rs`. */
  function Vars(kind: VarKind, rs: seq<int>): (es: seq<Expr>)
    ensures |es| == |rs|
    ensures forall k :: 0 <= k < |rs| ==> es[k] == RegVar(kind, rs[k])
  {
    seq(|rs|, k requires 0 <= k < |rs| => RegVar(kind, rs[k]))
  }

  // ---------------------------------------------------------------------
  // getLabels, getLabelsRange

  /** `getLabels`: the disjunction of the arguments' high labels; false
      for a count outside 1 .. 5. */
  function GetLabels(ins: FiveRegs): (r: Expr)
    ensures 1 <= ins.count <= 5 ==> r == Or(Vars(H, Args(ins)))
    ensures !(1 <= ins.count <= 5) ==> r == False
  {
    ghost var rs := Args(ins);
    assert 1 <= ins.count <= 5 ==> rs[0] == ins.c;
    assert 2 <= ins.count <= 5 ==> rs[1] == ins.d;
    assert 3 <= ins.count <= 5 ==> rs[2] == ins.e;
    assert 4 <= ins.count <= 5 ==> rs[3] == ins.f;
    assert ins.count == 5 ==> rs[4] == ins.g;
    match ins.count
    case 1 =>
      assert Vars(H, rs) == [RegVar(H, ins.c)];
      Or([RegVar(H, ins.c)])
    case 2 =>
      assert Vars(H, rs) == [RegVar(H, ins.c), RegVar(H, ins.d)];
      Or([RegVar(H, ins.c), RegVar(H, ins.d)])
    case 3 =>
      assert Vars(H, rs) == [RegVar(H, ins.c), RegVar(H, ins.d), RegVar(H, ins.e)];
      Or([RegVar(H, ins.c), RegVar(H, ins.d), RegVar(H, ins.e)])
    case 4 =>
      assert Vars(H, rs) == [RegVar(H, ins.c), RegVar(H, ins.d), RegVar(H, ins.e), RegVar(H, ins.f)];
      Or([RegVar(H, ins.c), RegVar(H, ins.d), RegVar(H, ins.e), RegVar(H, ins.f)])
    case 5 =>
      assert Vars(H, rs) == [RegVar(H, ins.c), RegVar(H, ins.d), RegVar(H, ins.e), RegVar(H, ins.f), RegVar(H, ins.g)];
      Or([RegVar(H, ins.c), RegVar(H, ins.d), RegVar(H, ins.e), RegVar(H, ins.f), RegVar(H, ins.g)])
    case _ => False
  }

  /** Some register of `rs` has its flag of the given kind set. */
  predicate SomeFlag(kind: VarKind, rs: seq<int>, val: Valuation) {
    exists k :: 0 <= k < |rs| && val.flag(kind, rs[k])
  }

  /** A disjunction of Boolean register variables holds exactly when one
      of the registers has its flag set. */
  lemma {:induction false} EvalAnyVars(kind: VarKind, rs: seq<int>, val: Valuation)
    requires !IsValue(kind)
    ensures EvalAny(Vars(kind, rs), val) == Some(SomeFlag(kind, rs, val))
    decreases |rs|
  {
    if |rs| > 0 {
      EvalAnyVars(kind, rs[1..], val);
      assert Vars(kind, rs)[1..] == Vars(kind, rs[1..]);
      if val.flag(kind, rs[0]) {
        assert SomeFlag(kind, rs, val);
      } else if SomeFlag(kind, rs[1..], val) {
        var k :| 0 <= k < |rs| - 1 && val.flag(kind, rs[1..][k]);
        assert val.flag(kind, rs[k + 1]);
      } else {
        forall k | 0 <= k < |rs| ensures !val.flag(kind, rs[k]) {
          if k > 0 { assert rs[k] == rs[1..][k - 1]; }
        }
      }
    }
  }

  /** The labels of a call hold exactly when one of its argument registers
      is high. */
  lemma GetLabelsMeaning(ins: FiveRegs, val: Valuation)
    ensures Eval(GetLabels(ins), val) == Some(SomeFlag(H, Args(ins), val))
  {
    EvalAnyVars(H, Args(ins), val);
  }

  /** `labels = or(labels, H(reg))` for the first n registers from start. */
  function LabelChain(start: int, n: int): Expr
    decreases n
  {
    if n <= 0 then False else Or([LabelChain(start, n - 1), RegVar(H, start + n - 1)])
  }

  /** `getLabelsRange`. */
  method GetLabelsRange(ins: RangeRegs) returns (r: Expr)
    ensures r == Or([LabelChain(ins.start, ins.count)])
  {
    var endRegister := ins.start + ins.count - 1;
    var labels := False;
    var reg := ins.start;
    while reg <= endRegister
      invariant ins.start <= reg && reg - ins.start <= (if ins.count > 0 then ins.count else 0)
      invariant labels == LabelChain(ins.start, reg - ins.start)
      decreases endRegister - reg
    {
      labels := Or([labels, RegVar(H, reg)]);
      reg := reg + 1;
    }
    if ins.count <= 0 {
      assert labels == LabelChain(ins.start, ins.count);
    }
    r := Or([labels]);
  }

  /** The label chain holds exactly when one of the registers start ..
      start + n - 1 is high. */
  lemma {:induction false} LabelChainMeaning(start: int, n: int, val: Valuation)
    ensures Eval(LabelChain(start, n), val) == Some(exists reg :: start <= reg < start + n && val.flag(H, reg))
    decreases n
  {
    if n > 0 {
      LabelChainMeaning(start, n - 1, val);
      EvalPair(LabelChain(start, n - 1), RegVar(H, start + n - 1), val);
      if exists reg :: start <= reg < start + n && val.flag(H, reg) {
        var reg :| start <= reg < start + n && val.flag(H, reg);
        if reg < start + n - 1 {
          assert exists r :: start <= r < start + n - 1 && val.flag(H, r);
        }
      }
    }
  }

  /** The range labels hold exactly when a register of the range is high. */
  lemma GetLabelsRangeMeaning(ins: RangeRegs, val: Valuation)
    ensures Eval(Or([LabelChain(ins.start, ins.count)]), val)
         == Some(exists reg :: ins.start <= reg < ins.start + ins.count && val.flag(H, reg))
  {
    var chain := LabelChain(ins.start, ins.count);
    LabelChainMeaning(ins.start, ins.count, val);
    assert [chain][1..] == [];
    assert EvalAny([], val) == Some(false);
    assert EvalAny([chain], val) == Some(Eval(chain, val).value || false);
    assert Eval(Or([chain]), val) == EvalAny([chain], val);
  }

  // ---------------------------------------------------------------------
  // updateRegister, updateResult

  /** The first n arguments placed in the two windows that start at lo
      and at p: argument k at lo + k and at p + k. */
  function ArgWindows(lo: int, p: int, kind: VarKind, ins: FiveRegs, n: int): map<int, Expr>
    requires n <= 5
    decreases n
  {
    if n <= 0 then map[]
    else ArgWindows(lo, p, kind, ins, n - 1)[lo + n - 1 := RegVar(kind, FiveArg(ins, n - 1))][p + n - 1 := RegVar(kind, FiveArg(ins, n - 1))]
  }

  /** The five-register branch of `updateRegister(numReg, numArg, kind)`:
      the k-th argument's variable goes to the callee's register
      numReg - numArg + k and to its parameter copy numReg + 1 + k; a count
      outside 1 .. 5 matches no case of the switch. */
  function UpdateRegisterFive(numReg: int, numArg: int, kind: VarKind, ins: FiveRegs): map<int, Expr> {
    if 1 <= numArg <= 5 then ArgWindows(numReg - numArg, numReg + 1, kind, ins, numArg) else map[]
  }

  /** The windows of n arguments hold exactly lo .. lo+n-1 and p .. p+n-1;
      when they do not overlap, argument k is at both of its slots. */
  lemma {:induction false} ArgWindowsGet(lo: int, p: int, kind: VarKind, ins: FiveRegs, n: int, x: int)
    requires 0 <= n <= 5 && lo + n <= p
    ensures var m := ArgWindows(lo, p, kind, ins, n);
      (x in m <==> lo <= x < lo + n || p <= x < p + n)
      && (lo <= x < lo + n ==> m[x] == RegVar(kind, FiveArg(ins, x - lo)))
      && (p <= x < p + n ==> m[x] == RegVar(kind, FiveArg(ins, x - p)))
    decreases n
  {
    if n > 0 {
      ArgWindowsGet(lo, p, kind, ins, n - 1, x);
    }
  }

  /** The callee registers filled by `updateRegister` are exactly the two
      argument windows, argument k in both, and none when the count is out of range. */
  lemma UpdateRegisterFiveMeaning(numReg: int, numArg: int, kind: VarKind, ins: FiveRegs, x: int)
    ensures var m := UpdateRegisterFive(numReg, numArg, kind, ins);
      (1 <= numArg <= 5 ==>
        (x in m <==> (numReg - numArg <= x < numReg) || (numReg + 1 <= x < numReg + 1 + numArg))
        && (numReg - numArg <= x < numReg ==> m[x] == RegVar(kind, FiveArg(ins, x - (numReg - numArg))))
        && (numReg + 1 <= x < numReg + 1 + numArg ==> m[x] == RegVar(kind, FiveArg(ins, x - (numReg + 1)))))
      && (!(1 <= numArg <= 5) ==> m == map[])
  {
    if 1 <= numArg <= 5 {
      ArgWindowsGet(numReg - numArg, numReg + 1, kind, ins, numArg, x);
    }
  }

  /** The range branch of `updateRegister` after n passes: pass k puts the
      callee variable k at the caller register start + k and at the
      callee's parameter copy numReg + 1 + k. */
  function RangeRegister(start: int, numReg: int, kind: VarKind, n: int): map<int, Expr>
    decreases n
  {
    if n <= 0 then map[]
    else RangeRegister(start, numReg, kind, n - 1)[start + n - 1 := RegVar(kind, n - 1)][numReg + n := RegVar(kind, n - 1)]
  }

  /** The pass that last writes slot x among the first n: both writes of
      pass k store variable k, so the later pass wins. */
  function LastPass(start: int, numReg: int, n: int, x: int): int {
    var ks, kp := x - start, x - numReg - 1;
    if 0 <= ks < n && 0 <= kp < n then (if ks > kp then ks else kp)
    else if 0 <= ks < n then ks else kp
  }

  /** The range branch writes exactly the caller registers start ..
      start + n - 1 and the parameter copies numReg + 1 .. numReg + n;
      each slot holds the variable of the last pass that wrote it. */
  lemma {:induction false} RangeRegisterGet(start: int, numReg: int, kind: VarKind, n: int, x: int)
    ensures var m := RangeRegister(start, numReg, kind, n);
      (x in m <==> (0 <= x - start < n || 0 <= x - numReg - 1 < n))
      && (x in m ==> m[x] == RegVar(kind, LastPass(start, numReg, n, x)))
    decreases n
  {
    if n > 0 {
      RangeRegisterGet(start, numReg, kind, n - 1, x);
    }
  }

  /** When the caller's range lies below the callee's parameter copies, the
      range branch states the k-th argument at both of its slots, as the
      variable with the pass number k rather than a caller register. */
  lemma RangeRegisterDisjoint(start: int, numReg: int, kind: VarKind, k: int)
    requires start <= 1 && 0 <= k < numReg
    ensures var m := RangeRegister(start, numReg, kind, numReg);
      start + k in m && m[start + k] == RegVar(kind, k) && numReg + 1 + k in m && m[numReg + 1 + k] == RegVar(kind, k)
  {
    RangeRegisterGet(start, numReg, kind, numReg, start + k);
    RangeRegisterGet(start, numReg, kind, numReg, numReg + 1 + k);
  }

  /** The switch of `updateRegister` on the argument count: two puts per
      argument into a fresh map, the windows first and then the copies. */
  method UpdateRegisterSwitch(numReg: int, numArg: int, kind: VarKind, ins: FiveRegs) returns (m: map<int, Expr>)
    ensures m == UpdateRegisterFive(numReg, numArg, kind, ins)
  {
    var vc, vd, ve, vf, vg := RegVar(kind, ins.c), RegVar(kind, ins.d), RegVar(kind, ins.e), RegVar(kind, ins.f), RegVar(kind, ins.g);
    var lo, p := numReg - numArg, numReg + 1;
    m := map[];
    match numArg
    case 1 =>
      m := m[lo := vc][p := vc];
      assert m == ArgWindows(lo, p, kind, ins, 1);
    case 2 =>
      m := m[lo := vc][lo + 1 := vd][p := vc][p + 1 := vd];
      assert m == ArgWindows(lo, p, kind, ins, 2);
    case 3 =>
      m := m[lo := vc][lo + 1 := vd][lo + 2 := ve][p := vc][p + 1 := vd][p + 2 := ve];
      assert m == ArgWindows(lo, p, kind, ins, 3);
    case 4 =>
      m := m[lo := vc][lo + 1 := vd][lo + 2 := ve][lo + 3 := vf][p := vc][p + 1 := vd][p + 2 := ve][p + 3 := vf];
      assert m == ArgWindows(lo, p, kind, ins, 4);
    case 5 =>
      m := m[lo := vc][lo + 1 := vd][lo + 2 := ve][lo + 3 := vf][lo + 4 := vg];
      m := m[p := vc][p + 1 := vd][p + 2 := ve][p + 3 := vf][p + 4 := vg];
      assert m == ArgWindows(lo, p, kind, ins, 5);
    case _ =>
  }

  /** The switch of `updateResult` on the argument count: one put per
      argument into a fresh map. */
  method UpdateResultSwitch(numArg: int, kind: VarKind, ins: FiveRegs) returns (m: map<int, Expr>)
    ensures m == UpdateResultFive(numArg, kind, ins)
  {
    var vc, vd, ve, vf, vg := RegVar(kind, ins.c), RegVar(kind, ins.d), RegVar(kind, ins.e), RegVar(kind, ins.f), RegVar(kind, ins.g);
    m := map[];
    match numArg
    case 1 =>
      m := m[0 := vc];
      assert m == UpdateResultFive(1, kind, ins);
    case 2 =>
      m := m[0 := vc][1 := vd];
      assert m == UpdateResultFive(2, kind, ins);
    case 3 =>
      m := m[0 := vc][1 := vd][2 := ve];
      assert m == UpdateResultFive(3, kind, ins);
    case 4 =>
      m := m[0 := vc][1 := vd][2 := ve][3 := vf];
      assert m == UpdateResultFive(4, kind, ins);
    case 5 =>
      m := m[0 := vc][1 := vd][2 := ve][3 := vf][4 := vg];
      assert m == UpdateResultFive(5, kind, ins);
    case _ =>
  }

  /** `updateRegister`: a fresh map built by the five-register switch, or
      by the loop over the range. */
  method UpdateRegister(numReg: int, numArg: int, kind: VarKind, ins: CallRegs) returns (m: map<int, Expr>)
    ensures ins.Five? ==> m == UpdateRegisterFive(numReg, numArg, kind, ins.five)
    ensures ins.Range? ==> m == RangeRegister(ins.range.start, numReg, kind, numReg)
  {
    if ins.Five? {
      m := UpdateRegisterSwitch(numReg, numArg, kind, ins.five);
    } else {
      var startRegister := ins.range.start;
      var endRegister := startRegister + numReg - 1;
      m := map[];
      var count := 0;
      var reg := startRegister;
      while reg <= endRegister
        invariant count == reg - startRegister
        invariant count <= (if numReg > 0 then numReg else 0)
        invariant m == RangeRegister(startRegister, numReg, kind, count)
        decreases endRegister - reg
      {
        m := m[reg := RegVar(kind, count)];
        m := m[numReg + 1 + count := RegVar(kind, count)];
        count := count + 1;
        reg := reg + 1;
      }
    }
  }

  /** The five-register branch of `updateResult`: the k-th argument's
      variable at slot k of the callee's summary, for the first numArg
      arguments; a count outside 1 .. 5 matches no case of the switch. */
  function UpdateResultFive(numArg: int, kind: VarKind, ins: FiveRegs): map<int, Expr>
    decreases numArg
  {
    if 1 <= numArg <= 5 then UpdateResultFive(numArg - 1, kind, ins)[numArg - 1 := RegVar(kind, FiveArg(ins, numArg - 1))]
    else map[]
  }

  /** `updateResult` fills the caller-side slots 0 .. numArg-1 with the
      arguments in order, and none when the count is out of range. */
  lemma {:induction false} UpdateResultFiveMeaning(numArg: int, kind: VarKind, ins: FiveRegs, x: int)
    ensures var m := UpdateResultFive(numArg, kind, ins);
      (1 <= numArg <= 5 ==> (x in m <==> 0 <= x < numArg) && (0 <= x < numArg ==> m[x] == RegVar(kind, FiveArg(ins, x))))
      && (!(1 <= numArg <= 5) ==> m == map[])
    decreases numArg
  {
    if 1 < numArg <= 5 {
      UpdateResultFiveMeaning(numArg - 1, kind, ins, x);
    }
  }

  /** `updateResult`: the five-register switch, or for a range the callee
      variable k at slot k for k below numReg. */
  method UpdateResult(numReg: int, numArg: int, kind: VarKind, ins: CallRegs) returns (m: map<int, Expr>)
    ensures ins.Five? ==> m == UpdateResultFive(numArg, kind, ins.five)
    ensures ins.Range? ==> m == Override(map[], 0, numReg, VarGen(kind))
  {
    if ins.Five? {
      m := UpdateResultSwitch(numArg, kind, ins.five);
    } else {
      var startRegister := ins.range.start;
      var endRegister := startRegister + numReg - 1;
      m := map[];
      var count := 0;
      var reg := startRegister;
      while reg <= endRegister
        invariant count == reg - startRegister
        invariant count <= (if numReg > 0 then numReg else 0)
        invariant m == Override(map[], 0, count, VarGen(kind))
        decreases endRegister - reg
      {
        m := m[count := RegVar(kind, count)];
        count := count + 1;
        reg := reg + 1;
      }
      if numReg <= 0 {
        assert Override(map[], 0, numReg, VarGen(kind)) == map[];
      }
    }
  }

  /** The range branch of `updateResult` names slots 0 .. numReg - 1, each
      holding its own callee variable. */
  lemma RangeResultGet(numReg: int, kind: VarKind, x: int)
    ensures var m := Override(map[], 0, numReg, VarGen(kind));
      (x in m <==> 0 <= x < numReg) && (x in m ==> m[x] == RegVar(kind, x))
  {
    OverrideGet(map[], 0, numReg, VarGen(kind), x);
  }

  // ---------------------------------------------------------------------
  // highReg (the older L/B register encoding)

  /** `or(L(r), and(B(r), or(L(o) for o in others)))`. */
  function Spread(r: int, others: seq<int>): Expr {
    Or([RegVar(L, r), And([RegVar(B, r), Or(Vars(L, others))])])
  }

  /** The five-register branch of `highReg`: an argument becomes high when
      it was high, or when it is a reference (B) and another argument is
      high. The lists of the other arguments follow the source's order. */
  function HighRegFive(ins: FiveRegs, m: map<int, Expr>): map<int, Expr> {
    var c, d, e, f, g := ins.c, ins.d, ins.e, ins.f, ins.g;
    match ins.count
    case 1 => m[c := RegVar(L, c)]
    case 2 => m[c := Or([RegVar(L, c), And([RegVar(B, c), RegVar(L, d)])])]
               [d := Or([RegVar(L, d), And([RegVar(B, d), RegVar(L, c)])])]
    case 3 => m[c := Spread(c, [d, e])][d := Spread(d, [c, e])][e := Spread(e, [c, d])]
    case 4 => m[c := Spread(c, [d, e, f])][d := Spread(d, [c, e, f])][e := Spread(e, [d, c, f])][f := Spread(f, [d, e, c])]
    case 5 => m[c := Spread(c, [d, e, f, g])][d := Spread(d, [c, e, f, g])][e := Spread(e, [d, c, f, g])]
               [f := Spread(f, [d, e, c, g])][g := Spread(g, [d, e, f, c])]
    case _ => m
  }

  /** The registers of `rs` are pairwise distinct. */
  predicate Distinct(rs: seq<int>) {
    forall i, j :: 0 <= i < j < |rs| ==> rs[i] != rs[j]
  }

  /** Some argument other than the k-th is high. */
  predicate OtherHigh(rs: seq<int>, k: int, val: Valuation) {
    exists j :: 0 <= j < |rs| && j != k && val.flag(L, rs[j])
  }

  /** The label `highReg` gives an argument: high, or a reference while
      another argument is high. */
  predicate SpreadHolds(rs: seq<int>, k: int, val: Valuation)
    requires 0 <= k < |rs|
  {
    val.flag(L, rs[k]) || (val.flag(B, rs[k]) && OtherHigh(rs, k, val))
  }

  lemma SpreadMeaning(r: int, others: seq<int>, val: Valuation)
    ensures Eval(Spread(r, others), val) == Some(val.flag(L, r) || (val.flag(B, r) && SomeFlag(L, others, val)))
  {
    EvalAnyVars(L, others, val);
    EvalPair(RegVar(B, r), Or(Vars(L, others)), val);
    EvalPair(RegVar(L, r), And([RegVar(B, r), Or(Vars(L, others))]), val);
  }

  /** The others' list of argument k names exactly the arguments other
      than the k-th. */
  predicate OthersOf(rs: seq<int>, k: int, others: seq<int>) {
    (forall x :: x in others ==> exists j :: 0 <= j < |rs| && j != k && rs[j] == x)
    && (forall j :: 0 <= j < |rs| && j != k ==> rs[j] in others)
  }

  lemma OthersMeaning(rs: seq<int>, k: int, others: seq<int>, val: Valuation)
    requires OthersOf(rs, k, others)
    ensures SomeFlag(L, others, val) == OtherHigh(rs, k, val)
  {
    if SomeFlag(L, others, val) {
      var i :| 0 <= i < |others| && val.flag(L, others[i]);
      assert others[i] in others;
      var j :| 0 <= j < |rs| && j != k && rs[j] == others[i];
    }
    if OtherHigh(rs, k, val) {
      var j :| 0 <= j < |rs| && j != k && val.flag(L, rs[j]);
      assert rs[j] in others;
      var i :| 0 <= i < |others| && others[i] == rs[j];
    }
  }

  /** The argument at position k of `rs` and the list of the others the
      switch spreads to it: the case's other registers in source order. */
  function SpreadList(ins: FiveRegs, k: int): seq<int>
    requires 0 <= k < ArgCount(ins)
  {
    var c, d, e, f, g := ins.c, ins.d, ins.e, ins.f, ins.g;
    match ins.count
    case 3 => [[d, e], [c, e], [c, d]][k]
    case 4 => [[d, e, f], [c, e, f], [d, c, f], [d, e, c]][k]
    case 5 => [[d, e, f, g], [c, e, f, g], [d, c, f, g], [d, e, c, g], [d, e, f, c]][k]
    case _ => []
  }

  lemma SpreadListOthers(ins: FiveRegs, k: int)
    requires 3 <= ins.count <= 5 && 0 <= k < ins.count
    ensures OthersOf(Args(ins), k, SpreadList(ins, k))
  {
    var rs := Args(ins);
    var os := SpreadList(ins, k);
    forall j | 0 <= j < |rs| && j != k ensures rs[j] in os {
      assert rs[j] == FiveArg(ins, j);
    }
    forall x | x in os ensures exists j :: 0 <= j < |rs| && j != k && rs[j] == x {
      var i :| 0 <= i < |os| && os[i] == x;
      var j := SpreadIndex(ins.count, k, i);
      assert rs[j] == FiveArg(ins, j);
    }
  }

  /** Where the i-th entry of argument k's list sits among the arguments:
      past the own position, except that from E on the four- and
      five-argument cases put C where the own register would be. */
  function SpreadIndex(count: int, k: int, i: int): int {
    if count >= 4 && k >= 2 then (if i == k - 1 then 0 else i + 1)
    else if i < k then i else i + 1
  }

  /** The map `highReg` builds for distinct arguments: argument k gets the
      spread label (the case of one argument keeps its own label), and every
      other register keeps its entry. */
  lemma HighRegFiveGet(ins: FiveRegs, m: map<int, Expr>, k: int)
    requires Distinct(Args(ins)) && 0 <= k < ArgCount(ins)
    ensures var r := Args(ins)[k];
      r in HighRegFive(ins, m)
      && HighRegFive(ins, m)[r] == (if ins.count == 1 then RegVar(L, r)
                                    else if ins.count == 2 then Or([RegVar(L, r), And([RegVar(B, r), RegVar(L, Args(ins)[1 - k])])])
                                    else Spread(r, SpreadList(ins, k)))
  {
    DistinctFive(ins);
    var rs := Args(ins);
    assert rs[k] == FiveArg(ins, k);
  }

  /** Distinct arguments, register by register. */
  lemma DistinctFive(ins: FiveRegs)
    requires Distinct(Args(ins))
    ensures 2 <= ins.count <= 5 ==> ins.c != ins.d
    ensures 3 <= ins.count <= 5 ==> ins.e != ins.c && ins.e != ins.d
    ensures 4 <= ins.count <= 5 ==> ins.f != ins.c && ins.f != ins.d && ins.f != ins.e
    ensures ins.count == 5 ==> ins.g != ins.c && ins.g != ins.d && ins.g != ins.e && ins.g != ins.f
  {
    var rs := Args(ins);
    if 2 <= ins.count <= 5 { assert rs[0] == ins.c && rs[1] == ins.d; }
    if 3 <= ins.count <= 5 { assert rs[2] == ins.e; }
    if 4 <= ins.count <= 5 { assert rs[3] == ins.f; }
    if ins.count == 5 { assert rs[4] == ins.g; }
  }

  lemma HighRegFiveOther(ins: FiveRegs, m: map<int, Expr>, x: int)
    requires x !in Args(ins)
    ensures Get(HighRegFive(ins, m), x) == Get(m, x)
  {
    var rs := Args(ins);
    if 1 <= ins.count <= 5 { assert rs[0] == ins.c; }
    if 2 <= ins.count <= 5 { assert rs[1] == ins.d; }
    if 3 <= ins.count <= 5 { assert rs[2] == ins.e; }
    if 4 <= ins.count <= 5 { assert rs[3] == ins.f; }
    if ins.count == 5 { assert rs[4] == ins.g; }
  }

  /** For distinct arguments, `highReg` gives argument k the label "high,
      or a reference while another argument is high", and leaves every
      other register as it was. */
  lemma HighRegFiveMeaning(ins: FiveRegs, m: map<int, Expr>, k: int, val: Valuation)
    requires Distinct(Args(ins)) && 0 <= k < ArgCount(ins)
    ensures var r := Args(ins)[k];
      r in HighRegFive(ins, m) && Eval(HighRegFive(ins, m)[r], val) == Some(SpreadHolds(Args(ins), k, val))
  {
    var rs := Args(ins);
    var r := rs[k];
    HighRegFiveGet(ins, m, k);
    if ins.count == 1 {
      assert !OtherHigh(rs, k, val);
    } else if ins.count == 2 {
      var o := rs[1 - k];
      EvalPair(RegVar(B, r), RegVar(L, o), val);
      EvalPair(RegVar(L, r), And([RegVar(B, r), RegVar(L, o)]), val);
      if OtherHigh(rs, k, val) {
        var j :| 0 <= j < |rs| && j != k && val.flag(L, rs[j]);
        assert j == 1 - k;
      }
    } else {
      SpreadMeaning(r, SpreadList(ins, k), val);
      SpreadListOthers(ins, k);
      OthersMeaning(rs, k, SpreadList(ins, k), val);
    }
  }

  /** The label the range branch writes: the disjunction of the others'
      labels is computed and dropped, so the spread part is `and(B, false)`. */
  function RangeSpread(reg: int): Expr {
    Or([RegVar(L, reg), And([RegVar(B, reg), False])])
  }

  /** The range branch of `highReg`. */
  function HighRegRange(ins: RangeRegs, m: map<int, Expr>): map<int, Expr> {
    if ins.count == 0 || ins.count == 1 then m
    else Override(m, ins.start, ins.start + ins.count, RangeSpread)
  }

  /** `highReg(range, regUpdate)`. */
  method HighReg(range: bool, ins: CallRegs, regUpdate: map<int, Expr>) returns (m: map<int, Expr>)
    requires range <==> ins.Range?
    ensures ins.Five? ==> m == HighRegFive(ins.five, regUpdate)
    ensures ins.Range? ==> m == HighRegRange(ins.range, regUpdate)
  {
    m := regUpdate;
    if !range {
      m := HighRegFive(ins.five, regUpdate);
    } else {
      var regCount := ins.range.count;
      var startRegister := ins.range.start;
      var endRegister := startRegister + regCount - 1;
      if regCount == 0 || regCount == 1 {
        return;
      }
      if regCount < 0 {
        assert HighRegRange(ins.range, regUpdate) == regUpdate;
      }
      var reg := startRegister;
      while reg <= endRegister
        invariant startRegister <= reg <= startRegister + (if regCount > 0 then regCount else 0)
        invariant m == Override(regUpdate, startRegister, reg, RangeSpread)
        decreases endRegister - reg
      {
        var orLabels := False;
        var reg2 := startRegister;
        while reg2 <= endRegister
          decreases endRegister - reg2
        {
          if reg2 != reg {
            var dropped := Or([orLabels, RegVar(L, reg)]);
          }
          reg2 := reg2 + 1;
        }
        m := m[reg := Or([RegVar(L, reg), And([RegVar(B, reg), orLabels])])];
        reg := reg + 1;
      }
      assert reg == startRegister + (if regCount > 0 then regCount else 0);
      assert m == HighRegRange(ins.range, regUpdate);
    }
  }

  /** As written, the range branch of `highReg` keeps each argument's own
      label only: it is high exactly when it was, whatever the others. */
  lemma HighRegRangeAsWritten(ins: RangeRegs, m: map<int, Expr>, reg: int, val: Valuation)
    requires ins.count >= 2 && ins.start <= reg < ins.start + ins.count
    ensures reg in HighRegRange(ins, m) && Eval(HighRegRange(ins, m)[reg], val) == Some(val.flag(L, reg))
  {
    OverrideGet(m, ins.start, ins.start + ins.count, RangeSpread, reg);
    RangeSpreadEval(reg, val);
  }

  lemma RangeSpreadEval(reg: int, val: Valuation)
    ensures Eval(RangeSpread(reg), val) == Some(val.flag(L, reg))
  {
    EvalPair(RegVar(B, reg), False, val);
    EvalPair(RegVar(L, reg), And([RegVar(B, reg), False]), val);
  }

  lemma HighRegRangeOther(ins: RangeRegs, m: map<int, Expr>, x: int)
    requires !(ins.start <= x < ins.start + ins.count)
    ensures Get(HighRegRange(ins, m), x) == Get(m, x)
  {
    OverrideGet(m, ins.start, ins.start + ins.count, RangeSpread, x);
  }

  // ---------------------------------------------------------------------
  // Sink queries

  /** The message `addQuery` attaches to a query. */
  function DescriptionText(d: Description): string {
    "Test if register " + IntToString(d.reg) + " leaks @line " + d.pc + " in method " + d.methodName
    + " of the class " + d.className + " ---> sink " + d.sinkName
  }

  /** The query asking whether register reg is secret at the program point
      p: `p and kind(reg) == true`. */
  function LeakQuery(p: Expr, reg: int, kind: VarKind, className: string, methodName: string, pc: string,
                     sinkName: string, verbose: bool): Query {
    Query(And([p, Eq(RegVar(kind, reg), True)]), LeakMessage(reg, pc, methodName, className, sinkName),
          verbose, className, methodName, pc, sinkName)
  }

  /** The queries `addQuery` registers, in the order the switch falls
      through: G, F, E, D, C for five arguments, down to C alone for one. */
  function SinkQueries(p: Expr, ins: FiveRegs, className: string, methodName: string, pc: string,
                       sinkName: string, verbose: bool): (qs: seq<Query>)
    ensures |qs| == ArgCount(ins)
    ensures var rs := Args(ins);
      forall t :: 0 <= t < |qs| ==> qs[t] == LeakQuery(p, rs[|rs| - 1 - t], H, className, methodName, pc, sinkName, verbose)
  {
    var rs := Args(ins);
    seq(|rs|, t requires 0 <= t < |rs| => LeakQuery(p, rs[|rs| - 1 - t], H, className, methodName, pc, sinkName, verbose))
  }

  /** The queries `addQueryRange` registers: one per register from start up,
      on the L labels of the older encoding. */
  function RangeQueries(p: Expr, ins: RangeRegs, className: string, methodName: string, pc: string,
                        sinkName: string, verbose: bool): (qs: seq<Query>)
    ensures |qs| == if ins.count > 0 then ins.count else 0
    ensures forall t :: 0 <= t < |qs| ==> qs[t] == LeakQuery(p, ins.start + t, L, className, methodName, pc, sinkName, verbose)
  {
    var n := if ins.count > 0 then ins.count else 0;
    seq(n, t requires 0 <= t < n => LeakQuery(p, ins.start + t, L, className, methodName, pc, sinkName, verbose))
  }

  /** Query t of a range is the leak query of register start + t. */
  lemma RangeQueryAt(p: Expr, ins: RangeRegs, className: string, methodName: string, pc: string,
                     sinkName: string, verbose: bool, reg: int)
    requires ins.start <= reg < ins.start + ins.count
    ensures reg - ins.start < |RangeQueries(p, ins, className, methodName, pc, sinkName, verbose)|
    ensures RangeQueries(p, ins, className, methodName, pc, sinkName, verbose)[reg - ins.start]
         == LeakQuery(p, reg, L, className, methodName, pc, sinkName, verbose)
  {
  }

  /** Every argument register has its query: `addQuery` asks about each
      argument of the sink call. */
  lemma SinkQueriesCover(p: Expr, ins: FiveRegs, className: string, methodName: string, pc: string,
                         sinkName: string, verbose: bool, k: int)
    requires 0 <= k < ArgCount(ins)
    ensures var qs := SinkQueries(p, ins, className, methodName, pc, sinkName, verbose);
      exists t :: 0 <= t < |qs| && qs[t].query == And([p, Eq(RegVar(H, Args(ins)[k]), True)])
  {
    var qs := SinkQueries(p, ins, className, methodName, pc, sinkName, verbose);
    var t := |qs| - 1 - k;
    assert qs[t] == LeakQuery(p, Args(ins)[k], H, className, methodName, pc, sinkName, verbose);
  }

  /** Queries about one program point and sink are merged into one: the
      solver sees a single query, the disjunction of all of them. */
  lemma SinkQueriesMerge(p: Expr, ins: FiveRegs, className: string, methodName: string, pc: string,
                         sinkName: string, verbose: bool)
    requires 1 <= ins.count <= 5
    ensures var qs := SinkQueries(p, ins, className, methodName, pc, sinkName, verbose);
      Flushed(Feed(QueryState([], None), qs)) == [MergeRun(qs)]
  {
    var qs := SinkQueries(p, ins, className, methodName, pc, sinkName, verbose);
    forall t | 0 <= t < |qs| ensures SameKey(qs[0], qs[t]) {
    }
    QueryCompaction(qs);
    SameKeyRunMerges(qs);
  }

  lemma RangeQueriesMerge(p: Expr, ins: RangeRegs, className: string, methodName: string, pc: string,
                          sinkName: string, verbose: bool)
    requires ins.count >= 1
    ensures var qs := RangeQueries(p, ins, className, methodName, pc, sinkName, verbose);
      Flushed(Feed(QueryState([], None), qs)) == [MergeRun(qs)]
      && forall t :: 0 <= t < |qs| ==> qs[t].query == And([p, Eq(RegVar(L, ins.start + t), True)])
  {
    var qs := RangeQueries(p, ins, className, methodName, pc, sinkName, verbose);
    forall t | 0 <= t < |qs| ensures SameKey(qs[0], qs[t]) {
    }
    QueryCompaction(qs);
    SameKeyRunMerges(qs);
  }
}
