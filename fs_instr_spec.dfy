/**
 * The clauses one flow-sensitive instruction produces, as functions of the
 * instruction's operands and of the nine update maps it starts from.
 *
 * Every clause relates `R` at the instruction's address to `R` at a
 * successor (or to a summary or heap fact). Both sides are built from the
 * update maps by `FsRPred`, so what an instruction does to a register is the
 * difference between the argument vectors of the two sides: the lemmas
 * below state those differences position by position.
 */
module FsInstr {
  import opened Wrappers
  import opened Exprs
  import opened FsEngine
  import opened Guards
  import Z3

  /** What an instruction knows about its place: the class and method labels
      of `R`, its address and the next one, and the method's register and
      local-heap sizes. */
  datatype Ctx = Ctx(c: string, m: string, codeAddress: int, nextCode: int,
                     numRegLoc: nat, numParLoc: nat, width: int, lhSize: nat)

  /** The registers of a program point: locals, the result slot numRegLoc,
      then the parameters. */
  function Regs(ctx: Ctx): nat {
    ctx.numParLoc + ctx.numRegLoc + 1
  }

  /** `rPred(classIndex, methodIndex, pc, maps…, numParLoc, numRegLoc)`. */
  function RAt(ctx: Ctx, pc: int, u: Updates): Expr {
    FsRPred(ctx.c, ctx.m, pc, u, ctx.numParLoc, ctx.numRegLoc, ctx.lhSize)
  }

  /** The fall-through clause: `R` here with `u` implies `R` at the next
      address with `u2`. */
  function Step(ctx: Ctx, u: Updates, u2: Updates): Expr {
    Implies(RAt(ctx, ctx.codeAddress, u), RAt(ctx, ctx.nextCode, u2))
  }

  function Zero(ctx: Ctx): Expr {
    Bv(0, ctx.width)
  }

  /** The four components written to one register. */
  datatype Reg4 = Reg4(v: Expr, h: Expr, l: Expr, g: Expr)

  /** The variables of register r. */
  function RegOf(r: int): Reg4 {
    Reg4(RegVar(V, r), RegVar(H, r), RegVar(L, r), RegVar(G, r))
  }

  /** A scalar: the value, no secret, not a pointer. */
  function Plain(v: Expr): Reg4 {
    Reg4(v, False, False, False)
  }

  /** The four `put`s for register r. */
  function PutReg(u: Updates, r: int, x: Reg4): Updates {
    u.(v := u.v[r := x.v], h := u.h[r := x.h], l := u.l[r := x.l], g := u.g[r := x.g])
  }

  /** The value and high `put`s of the arithmetic helpers. */
  function PutVH(u: Updates, r: int, v: Expr, h: Expr): Updates {
    u.(v := u.v[r := v], h := u.h[r := h])
  }

  /** `regUpV.clear(); regUpH.clear(); regUpL.clear(); regUpG.clear();` */
  function ClearRegs(u: Updates): Updates {
    u.(v := map[], h := map[], l := map[], g := map[])
  }

  /** Empty register maps over the local heap of `a` are `a` cleared. */
  lemma ClearedIs(a: Updates, b: Updates)
    requires b.lh == a.lh
    requires b.v == map[] && b.h == map[] && b.l == map[] && b.g == map[]
    ensures b == ClearRegs(a)
  {
  }

  /** What the predicate builder shows for an entry: the entry, or the slot's
      variable for a null. */
  function Shown(e: Expr, d: Expr): Expr {
    if e == Null then d else e
  }

  /** `after` differs from `before` only at the four positions of register
      r, which show x. */
  predicate OverridesOnly(before: seq<Expr>, after: seq<Expr>, n: nat, r: int, x: Reg4) {
    |after| == |before| && 0 <= r < n && 4 * n <= |before|
    && after[r] == Shown(x.v, RegVar(V, r)) && after[n + r] == Shown(x.h, RegVar(H, r))
    && after[2 * n + r] == Shown(x.l, RegVar(L, r)) && after[3 * n + r] == Shown(x.g, RegVar(G, r))
    && forall p :: 0 <= p < |before| && p != r && p != n + r && p != 2 * n + r && p != 3 * n + r
                   ==> after[p] == before[p]
  }

  /** `after` differs from `before` only at the value and high positions of
      register r. */
  predicate OverridesValueHigh(before: seq<Expr>, after: seq<Expr>, n: nat, r: int, v: Expr, h: Expr) {
    |after| == |before| && 0 <= r < n && 4 * n <= |before|
    && after[r] == Shown(v, RegVar(V, r)) && after[n + r] == Shown(h, RegVar(H, r))
    && forall p :: 0 <= p < |before| && p != r && p != n + r ==> after[p] == before[p]
  }

  /** Writing one register changes exactly its four argument positions. */
  lemma PutRegArgs(u: Updates, size: nat, lhSize: nat, r: int, x: Reg4)
    requires 0 <= r < size
    ensures OverridesOnly(FsArgs(u, size, lhSize, Variables), FsArgs(PutReg(u, r, x), size, lhSize, Variables), size, r, x)
  {
    var before, after := FsArgs(u, size, lhSize, Variables), FsArgs(PutReg(u, r, x), size, lhSize, Variables);
    FsArgsRegisters(PutReg(u, r, x), size, lhSize, Variables, r);
    forall p | 0 <= p < |before| && p != r && p != size + r && p != 2 * size + r && p != 3 * size + r
      ensures after[p] == before[p]
    {
      assert after[p] == Slot(PutReg(u, r, x), size, lhSize, Variables, p);
      assert before[p] == Slot(u, size, lhSize, Variables, p);
      SlotPutReg(u, size, lhSize, r, x, p);
    }
  }

  /** A slot outside register r's four positions does not see a write to r. */
  lemma SlotPutReg(u: Updates, size: nat, lhSize: nat, r: int, x: Reg4, p: int)
    requires 0 <= r < size && 0 <= p && p != r && p != size + r && p != 2 * size + r && p != 3 * size + r
    ensures Slot(PutReg(u, r, x), size, lhSize, Variables, p) == Slot(u, size, lhSize, Variables, p)
  {
    if p < size {
    } else if p < 2 * size {
      assert p - size != r;
    } else if p < 3 * size {
      assert p - 2 * size != r;
    } else if p < 4 * size {
      assert p - 3 * size != r;
    }
  }

  /** A slot outside register r's value and high positions does not see a
      write to them, and one outside its high position does not see a write
      to that. */
  lemma SlotPutVH(u: Updates, size: nat, lhSize: nat, r: int, v: Expr, h: Expr, p: int)
    requires 0 <= r < size && 0 <= p && p != size + r
    ensures p != r ==> Slot(PutVH(u, r, v, h), size, lhSize, Variables, p) == Slot(u, size, lhSize, Variables, p)
    ensures Slot(PutHigh(u, r, h), size, lhSize, Variables, p) == Slot(u, size, lhSize, Variables, p)
  {
    if size <= p < 2 * size {
      assert p - size != r;
    }
  }

  /** Writing value and high of one register changes exactly those two positions. */
  lemma PutVHArgs(u: Updates, size: nat, lhSize: nat, r: int, v: Expr, h: Expr)
    requires 0 <= r < size
    ensures OverridesValueHigh(FsArgs(u, size, lhSize, Variables), FsArgs(PutVH(u, r, v, h), size, lhSize, Variables), size, r, v, h)
  {
    var before, after := FsArgs(u, size, lhSize, Variables), FsArgs(PutVH(u, r, v, h), size, lhSize, Variables);
    FsArgsRegisters(PutVH(u, r, v, h), size, lhSize, Variables, r);
    forall p | 0 <= p < |before| && p != r && p != size + r
      ensures after[p] == before[p]
    {
      assert after[p] == Slot(PutVH(u, r, v, h), size, lhSize, Variables, p);
      assert before[p] == Slot(u, size, lhSize, Variables, p);
      SlotPutVH(u, size, lhSize, r, v, h, p);
    }
  }

  /** Raising the high label of one register. */
  function PutHigh(u: Updates, r: int, h: Expr): Updates {
    u.(h := u.h[r := h])
  }

  /** `after` differs from `before` only at the high position of register r. */
  predicate OverridesHigh(before: seq<Expr>, after: seq<Expr>, n: nat, r: int, h: Expr) {
    |after| == |before| && 0 <= r < n && 4 * n <= |before|
    && after[n + r] == Shown(h, RegVar(H, r))
    && forall p :: 0 <= p < |before| && p != n + r ==> after[p] == before[p]
  }

  /** Writing the high label of one register changes exactly that position. */
  lemma PutHighArgs(u: Updates, size: nat, lhSize: nat, r: int, h: Expr)
    requires 0 <= r < size
    ensures OverridesHigh(FsArgs(u, size, lhSize, Variables), FsArgs(PutHigh(u, r, h), size, lhSize, Variables), size, r, h)
  {
    var before, after := FsArgs(u, size, lhSize, Variables), FsArgs(PutHigh(u, r, h), size, lhSize, Variables);
    FsArgsRegisters(PutHigh(u, r, h), size, lhSize, Variables, r);
    forall p | 0 <= p < |before| && p != size + r
      ensures after[p] == before[p]
    {
      assert after[p] == Slot(PutHigh(u, r, h), size, lhSize, Variables, p);
      assert before[p] == Slot(u, size, lhSize, Variables, p);
      SlotPutVH(u, size, lhSize, r, Null, h, p);
    }
  }

  /** A clause from `R` at the current address with `u` to `R` at `pc2` with
      `u2`. */
  predicate IsRFlow(ctx: Ctx, rule: Expr, pc1: int, u: Updates, pc2: int, u2: Updates) {
    rule == Implies(RAt(ctx, pc1, u), RAt(ctx, pc2, u2))
  }

  // ---------------------------------------------------------------------
  // Data movement

  /** nop, monitor-enter/exit, throw and the conversions: the state flows
      unchanged to the next address. */
  function PropagateRule(ctx: Ctx, u: Updates): Expr {
    Step(ctx, u, u)
  }

  /** move vA, vB (and move-result vA with B the result slot numRegLoc). */
  function MoveRule(ctx: Ctx, u: Updates, a: int, b: int): Expr {
    Step(ctx, u, PutReg(u, a, RegOf(b)))
  }

  /** A successor whose register a shows x and that agrees with the start
      everywhere else. */
  predicate WritesRegister(ctx: Ctx, rule: Expr, a: int, x: Reg4) {
    rule.Implies? && rule.body.App? && rule.head.App?
    && rule.body.rel == R(ctx.c, ctx.m, ctx.codeAddress) && rule.head.rel == R(ctx.c, ctx.m, ctx.nextCode)
    && OverridesOnly(rule.body.args, rule.head.args, Regs(ctx), a, x)
  }

  /** A fall-through clause that puts x into register a writes a and only a. */
  lemma StepWritesRegister(ctx: Ctx, u: Updates, a: int, x: Reg4)
    requires 0 <= a < Regs(ctx)
    ensures WritesRegister(ctx, Step(ctx, u, PutReg(u, a, x)), a, x)
  {
    RAtArgs(ctx, ctx.codeAddress, u);
    RAtArgs(ctx, ctx.nextCode, PutReg(u, a, x));
    PutRegArgs(u, Regs(ctx), ctx.lhSize, a, x);
  }

  /** `R` at pc is applied to the argument vector of the maps. */
  lemma RAtArgs(ctx: Ctx, pc: int, u: Updates)
    ensures RAt(ctx, pc, u) == App(R(ctx.c, ctx.m, pc), FsArgs(u, Regs(ctx), ctx.lhSize, Variables))
  {
  }

  /** A move copies all four components of B into A and leaves every other
      register and the whole local heap as they were. */
  lemma MoveCopiesRegister(ctx: Ctx, u: Updates, a: int, b: int)
    requires 0 <= a < Regs(ctx)
    ensures WritesRegister(ctx, MoveRule(ctx, u, a, b), a, RegOf(b))
  {
    StepWritesRegister(ctx, u, a, RegOf(b));
  }

  /** const vA, #lit and const-string/const-class with the reference hash. */
  function ConstRule(ctx: Ctx, u: Updates, a: int, lit: int): Expr {
    Step(ctx, u, PutReg(u, a, Plain(Bv(lit, ctx.width))))
  }

  /** A constant is a plain value: not high, not a pointer. */
  lemma ConstIsPlain(ctx: Ctx, u: Updates, a: int, lit: int)
    requires 0 <= a < Regs(ctx)
    ensures WritesRegister(ctx, ConstRule(ctx, u, a, lit), a, Plain(Bv(lit, ctx.width)))
  {
    StepWritesRegister(ctx, u, a, Plain(Bv(lit, ctx.width)));
  }

  /** array-length vA, vB: the value F with the high label Lf, not a pointer. */
  function ArrayLengthRule(ctx: Ctx, u: Updates, a: int): Expr {
    Step(ctx, u, PutReg(u, a, Reg4(NamedVar(F), NamedVar(Lf), False, False)))
  }

  /** check-cast vA: the state flows on when A holds a non-zero global
      pointer, and when it holds a non-zero local pointer. */
  function CheckCastRules(ctx: Ctx, u: Updates, a: int): seq<Expr> {
    var nonZero := BvCompare(Ugt, RegVar(V, a), Zero(ctx));
    [Implies(And([RAt(ctx, ctx.codeAddress, u), Eq(RegVar(G, a), True), nonZero]), RAt(ctx, ctx.nextCode, u)),
     Implies(And([RAt(ctx, ctx.codeAddress, u), Eq(RegVar(L, a), True), nonZero]), RAt(ctx, ctx.nextCode, u))]
  }

  /** instance-of vA: one clause gives A the value 0, a second one, built
      after clearing the register maps, the value 1. */
  function InstanceOfRules(ctx: Ctx, u: Updates, a: int): seq<Expr> {
    [Step(ctx, u, PutReg(u, a, Plain(Zero(ctx)))),
     Step(ctx, ClearRegs(u), PutReg(ClearRegs(u), a, Plain(Bv(1, ctx.width))))]
  }

  /** The register maps after instance-of. */
  function InstanceOfState(ctx: Ctx, u: Updates, a: int): Updates {
    PutReg(ClearRegs(u), a, Plain(Bv(1, ctx.width)))
  }

  /** instance-of leaves both outcomes possible: A is 0 on one edge and 1
      on the other, and both edges lead to the next address. */
  lemma InstanceOfBothOutcomes(ctx: Ctx, u: Updates, a: int)
    requires 0 <= a < Regs(ctx)
    ensures var rs := InstanceOfRules(ctx, u, a);
      |rs| == 2
      && WritesRegister(ctx, rs[0], a, Plain(Zero(ctx)))
      && WritesRegister(ctx, rs[1], a, Plain(Bv(1, ctx.width)))
  {
    StepWritesRegister(ctx, u, a, Plain(Zero(ctx)));
    StepWritesRegister(ctx, ClearRegs(u), a, Plain(Bv(1, ctx.width)));
  }

  // ---------------------------------------------------------------------
  // return

  /** The summary maps of return vA: the result slot numParLoc shows A, and
      slot k < numParLoc shows the parameter register numRegLoc + 1 + k. */
  function ReturnUpdates(u: Updates, a: int, numRegLoc: nat, numParLoc: nat): Updates {
    var u1 := PutReg(u, numParLoc, RegOf(a));
    var d := numRegLoc + 1;
    u1.(v := Override(u1.v, 0, numParLoc, ShiftGen(V, d)), h := Override(u1.h, 0, numParLoc, ShiftGen(H, d)),
        l := Override(u1.l, 0, numParLoc, ShiftGen(L, d)), g := Override(u1.g, 0, numParLoc, ShiftGen(G, d)))
  }

  /** return vA: `R` here implies the method summary `RES`. */
  function ReturnRule(ctx: Ctx, u: Updates, a: int): Expr {
    Implies(RAt(ctx, ctx.codeAddress, u),
            FsResPred(ctx.c, ctx.m, ReturnUpdates(u, a, ctx.numRegLoc, ctx.numParLoc), ctx.numParLoc, ctx.lhSize))
  }

  /** The register whose components summary slot k shows. */
  function SummarySource(a: int, numRegLoc: nat, numParLoc: nat, k: int): int {
    if k < numParLoc then numRegLoc + 1 + k else a
  }

  /** One summary map: slot k < numParLoc shows the shifted parameter
      variable, and slot numParLoc what the returned register put there. */
  lemma SummaryMapSlot(m1: map<int, Expr>, numRegLoc: nat, numParLoc: nat, k: int, kind: VarKind, e: Expr)
    requires 0 <= k <= numParLoc && numParLoc in m1 && m1[numParLoc] == e && e != Null
    ensures ArgOr(Override(m1, 0, numParLoc, ShiftGen(kind, numRegLoc + 1)), k, RegVar(kind, k))
         == if k < numParLoc then RegVar(kind, numRegLoc + 1 + k) else e
  {
    OverrideGet(m1, 0, numParLoc, ShiftGen(kind, numRegLoc + 1), k);
  }

  lemma ReturnSlot(u: Updates, a: int, numRegLoc: nat, numParLoc: nat, k: int)
    requires 0 <= k <= numParLoc
    ensures var u2 := ReturnUpdates(u, a, numRegLoc, numParLoc);
      var r := SummarySource(a, numRegLoc, numParLoc, k);
      ArgOr(u2.v, k, RegVar(V, k)) == RegVar(V, r) && ArgOr(u2.h, k, RegVar(H, k)) == RegVar(H, r)
      && ArgOr(u2.l, k, RegVar(L, k)) == RegVar(L, r) && ArgOr(u2.g, k, RegVar(G, k)) == RegVar(G, r)
  {
    var u1 := PutReg(u, numParLoc, RegOf(a));
    SummaryMapSlot(u1.v, numRegLoc, numParLoc, k, V, RegVar(V, a));
    SummaryMapSlot(u1.h, numRegLoc, numParLoc, k, H, RegVar(H, a));
    SummaryMapSlot(u1.l, numRegLoc, numParLoc, k, L, RegVar(L, a));
    SummaryMapSlot(u1.g, numRegLoc, numParLoc, k, G, RegVar(G, a));
  }

  /** The summary records the parameters' registers in order, then the
      returned register, each with all four components. */
  lemma ReturnSummarizes(ctx: Ctx, u: Updates, a: int, k: int)
    requires 0 <= k <= ctx.numParLoc
    ensures var head := ReturnRule(ctx, u, a).head;
      var n := ctx.numParLoc + 1;
      var r := SummarySource(a, ctx.numRegLoc, ctx.numParLoc, k);
      head.rel == Res(ctx.c, ctx.m) && |head.args| == 4 * n + 5 * ctx.lhSize
      && head.args[k] == RegVar(V, r) && head.args[n + k] == RegVar(H, r)
      && head.args[2 * n + k] == RegVar(L, r) && head.args[3 * n + k] == RegVar(G, r)
  {
    ResArgs(ctx.c, ctx.m, ReturnUpdates(u, a, ctx.numRegLoc, ctx.numParLoc), ctx.numParLoc, ctx.lhSize, k);
    ReturnSlot(u, a, ctx.numRegLoc, ctx.numParLoc, k);
  }

  /** The summary's four register blocks over numParLoc + 1 slots. */
  lemma ResArgs(c: string, m: string, u: Updates, numParLoc: nat, lhSize: nat, k: int)
    requires 0 <= k <= numParLoc
    ensures var head, n := FsResPred(c, m, u, numParLoc, lhSize), numParLoc + 1;
      head.rel == Res(c, m) && |head.args| == 4 * n + 5 * lhSize
      && head.args[k] == ArgOr(u.v, k, RegVar(V, k)) && head.args[n + k] == ArgOr(u.h, k, RegVar(H, k))
      && head.args[2 * n + k] == ArgOr(u.l, k, RegVar(L, k)) && head.args[3 * n + k] == ArgOr(u.g, k, RegVar(G, k))
  {
    FsArgsRegisters(u, numParLoc + 1, lhSize, Variables, k);
  }

  // ---------------------------------------------------------------------
  // Arithmetic

  /** The arithmetic opcode families. */
  datatype ArithOp = AddOp | SubOp | MulOp | DivOp | RemOp | AndOp | OrOp | XorOp | ShlOp | ShrOp | UshrOp

  /** The bit-vector operation of the three-register forms (add-int vA, vB,
      vC and so on), as the opcode table builds it: rem takes `bvudiv` and
      shl takes `bvxor`. */
  function Op3(k: ArithOp): BvOp {
    match k
    case AddOp => Add
    case SubOp => Sub
    case MulOp => Mul
    case DivOp => Udiv
    case RemOp => Udiv
    case AndOp => BvAnd
    case OrOp => BvOr
    case XorOp => BvXor
    case ShlOp => BvXor
    case ShrOp => Ashr
    case UshrOp => Lshr
  }

  /** The operation of the /2addr and literal forms. */
  function Op2(k: ArithOp): BvOp {
    match k
    case AddOp => Add
    case SubOp => Sub
    case MulOp => Mul
    case DivOp => Udiv
    case RemOp => Urem
    case AndOp => BvAnd
    case OrOp => BvOr
    case XorOp => BvXor
    case ShlOp => Shl
    case ShrOp => Ashr
    case UshrOp => Lshr
  }

  /** The three-register forms build the same term as the /2addr forms
      except for rem and shl. */
  lemma Op3DiffersOnlyForRemAndShl(k: ArithOp)
    ensures Op3(k) != Op2(k) <==> k == RemOp || k == ShlOp
    ensures Op3(RemOp) == Op2(DivOp) && Op3(ShlOp) == Op2(XorOp)
  {
  }

  /** `unaryOp(bv)`: A gets the value bv and B's high label. */
  function UnaryRule(ctx: Ctx, u: Updates, a: int, b: int, bv: Expr): Expr {
    Step(ctx, u, PutVH(u, a, bv, RegVar(H, b)))
  }

  /** `binaryOp(bv)`: A gets bv and the join of A's and B's high labels. */
  function BinaryRule(ctx: Ctx, u: Updates, a: int, b: int, bv: Expr): Expr {
    Step(ctx, u, PutVH(u, a, bv, Or([RegVar(H, a), RegVar(H, b)])))
  }

  /** `binaryOpC(bv)`: A gets bv and the join of B's and C's high labels. */
  function BinaryCRule(ctx: Ctx, u: Updates, a: int, b: int, c: int, bv: Expr): Expr {
    Step(ctx, u, PutVH(u, a, bv, Or([RegVar(H, b), RegVar(H, c)])))
  }

  /** The value cmp-long vA, vB, vC stores: 0, 1 or -1 as B equals, is
      above or is below C. */
  function CmpValue(b: int, c: int, width: int): Expr {
    Ite(Eq(RegVar(V, b), RegVar(V, c)), Bv(0, width),
        Ite(BvCompare(Ugt, RegVar(V, b), RegVar(V, c)), Bv(1, width), Bv(-1, width)))
  }

  /** A successor whose register a shows value v and high h and that agrees
      with the start everywhere else. */
  predicate WritesValueHigh(ctx: Ctx, rule: Expr, a: int, v: Expr, h: Expr) {
    rule.Implies? && rule.body.App? && rule.head.App?
    && rule.body.rel == R(ctx.c, ctx.m, ctx.codeAddress) && rule.head.rel == R(ctx.c, ctx.m, ctx.nextCode)
    && OverridesValueHigh(rule.body.args, rule.head.args, Regs(ctx), a, v, h)
  }

  /** Arithmetic writes the value and the high label of the destination
      and nothing else: its pointer flags L and G flow through. */
  lemma ArithmeticKeepsPointerFlags(ctx: Ctx, u: Updates, a: int, b: int, c: int, bv: Expr)
    requires 0 <= a < Regs(ctx)
    ensures WritesValueHigh(ctx, UnaryRule(ctx, u, a, b, bv), a, bv, RegVar(H, b))
    ensures WritesValueHigh(ctx, BinaryRule(ctx, u, a, b, bv), a, bv, Or([RegVar(H, a), RegVar(H, b)]))
    ensures WritesValueHigh(ctx, BinaryCRule(ctx, u, a, b, c, bv), a, bv, Or([RegVar(H, b), RegVar(H, c)]))
  {
    StepWritesValueHigh(ctx, u, a, bv, RegVar(H, b));
    StepWritesValueHigh(ctx, u, a, bv, Or([RegVar(H, a), RegVar(H, b)]));
    StepWritesValueHigh(ctx, u, a, bv, Or([RegVar(H, b), RegVar(H, c)]));
  }

  /** A fall-through clause that puts v and h into register a writes those
      two positions and only those. */
  lemma StepWritesValueHigh(ctx: Ctx, u: Updates, a: int, v: Expr, h: Expr)
    requires 0 <= a < Regs(ctx)
    ensures WritesValueHigh(ctx, Step(ctx, u, PutVH(u, a, v, h)), a, v, h)
  {
    RAtArgs(ctx, ctx.codeAddress, u);
    RAtArgs(ctx, ctx.nextCode, PutVH(u, a, v, h));
    PutVHArgs(u, Regs(ctx), ctx.lhSize, a, v, h);
  }

  // ---------------------------------------------------------------------
  // Branches

  /** goto +offset. */
  function GotoRule(ctx: Ctx, u: Updates, offset: int): Expr {
    Implies(RAt(ctx, ctx.codeAddress, u), RAt(ctx, ctx.codeAddress + offset, u))
  }

  datatype IfKind = IfEq | IfNe | IfLt | IfGe | IfGt | IfLe

  /** The guard of if-kind x, y, reading the `FSEngine` builders `bvult`,
      `bvuge`, `bvugt` and `bvule` as the unsigned comparisons their names
      say. `FSEngine` is not part of this model; its `Z3Engine` counterpart
      `bvult` builds an unsigned less-or-equal (`Z3.Bvult`), and
      `IfGuardZ3Reading` is the guard under that reading. */
  function IfGuard(k: IfKind, x: Expr, y: Expr): Expr {
    match k
    case IfEq => Eq(x, y)
    case IfNe => Not(Eq(x, y))
    case IfLt => BvCompare(Ult, x, y)
    case IfGe => BvCompare(Uge, x, y)
    case IfGt => BvCompare(Ugt, x, y)
    case IfLe => BvCompare(Ule, x, y)
  }

  /** `cmpInstruction(g)`: jump to codeAddress + offset when g holds, fall
      through when it does not. */
  function CmpInstructionRules(ctx: Ctx, u: Updates, g: Expr, offset: int): seq<Expr> {
    [Implies(And([RAt(ctx, ctx.codeAddress, u), g]), RAt(ctx, ctx.codeAddress + offset, u)),
     Implies(And([RAt(ctx, ctx.codeAddress, u), Not(g)]), RAt(ctx, ctx.nextCode, u))]
  }

  /** A conditional branch has exactly two edges, guarded by g and by its
      negation, and neither changes any register or heap slot. */
  lemma BranchEdges(ctx: Ctx, u: Updates, g: Expr, offset: int)
    ensures var rs := CmpInstructionRules(ctx, u, g, offset);
      |rs| == 2
      && rs[0].body == And([RAt(ctx, ctx.codeAddress, u), g]) && rs[1].body == And([RAt(ctx, ctx.codeAddress, u), Not(g)])
      && rs[0].head.args == rs[1].head.args == RAt(ctx, ctx.codeAddress, u).args
      && rs[0].head.rel == R(ctx.c, ctx.m, ctx.codeAddress + offset)
      && rs[1].head.rel == R(ctx.c, ctx.m, ctx.nextCode)
  {
  }

  /** The guard of if-kind x, y when `bvult` builds what `Z3Engine.bvult`
      builds; the other three builders make the relation of their name. */
  function IfGuardZ3Reading(k: IfKind, x: Expr, y: Expr): Expr {
    if k == IfLt then Z3.Bvult(x, y) else IfGuard(k, x, y)
  }

  /** The comparison an if-kind states. */
  function Holds(k: IfKind, x: int, y: int): bool {
    match k
    case IfEq => x == y
    case IfNe => x != y
    case IfLt => x < y
    case IfGe => x >= y
    case IfGt => x > y
    case IfLe => x <= y
  }

  /** With the builders read by name, if-kind vA, vB jumps when the unsigned
      values of A and B are in the kind's relation, and falls through when
      they are not. */
  lemma IfGuardMeaning(k: IfKind, a: int, b: int, val: Valuation)
    ensures var x, y := val.value(a) % Pow2(val.width), val.value(b) % Pow2(val.width);
      Eval(IfGuard(k, RegVar(V, a), RegVar(V, b)), val) == Some(Holds(k, x, y))
      && Eval(Not(IfGuard(k, RegVar(V, a), RegVar(V, b))), val) == Some(!Holds(k, x, y))
  {
  }

  /** With the builders read by name, if-kindz vA compares the unsigned
      value of A with the literal 0. */
  lemma IfZeroGuardMeaning(ctx: Ctx, k: IfKind, a: int, val: Valuation)
    requires val.width == ctx.width
    ensures Eval(IfGuard(k, RegVar(V, a), Zero(ctx)), val) == Some(Holds(k, val.value(a) % Pow2(val.width), 0))
  {
  }

  /** With the builders read by name the comparisons are unsigned and
      strict where the name says so, so if-ltz never jumps and if-gez always
      does, whatever A holds. */
  lemma SignTestsAreConstant(ctx: Ctx, a: int, val: Valuation)
    requires val.width == ctx.width
    ensures Eval(IfGuard(IfLt, RegVar(V, a), Zero(ctx)), val) == Some(false)
    ensures Eval(IfGuard(IfGe, RegVar(V, a), Zero(ctx)), val) == Some(true)
  {
    IfZeroGuardMeaning(ctx, IfLt, a, val);
    IfZeroGuardMeaning(ctx, IfGe, a, val);
  }

  /** Under the `Z3Engine` reading of `bvult`, if-lt vA, vB jumps when A is
      at most B, unsigned, if-ltz jumps exactly when A is 0, and every other
      kind keeps the meaning it has with the builders read by name. */
  lemma IfGuardZ3ReadingMeaning(ctx: Ctx, k: IfKind, a: int, b: int, val: Valuation)
    requires val.width == ctx.width
    ensures var x, y := val.value(a) % Pow2(val.width), val.value(b) % Pow2(val.width);
      Eval(IfGuardZ3Reading(IfLt, RegVar(V, a), RegVar(V, b)), val) == Some(x <= y)
      && Eval(IfGuardZ3Reading(IfLt, RegVar(V, a), Zero(ctx)), val) == Some(x == 0)
      && (k != IfLt ==> Eval(IfGuardZ3Reading(k, RegVar(V, a), RegVar(V, b)), val) == Some(Holds(k, x, y)))
  {
    if k != IfLt {
      IfGuardMeaning(k, a, b, val);
    }
  }

  // ---------------------------------------------------------------------
  // Switches

  /** A packed-switch table: the first key and the targets of keys
      firstKey, firstKey + 1, … */
  datatype PackedTable = PackedTable(firstKey: int, targets: seq<int>)

  /** The (key, target) pairs of a packed table. */
  function PackedCases(p: PackedTable): (cs: seq<(int, int)>)
    ensures |cs| == |p.targets|
    ensures forall t :: 0 <= t < |cs| ==> cs[t] == (p.firstKey + t, p.targets[t])
  {
    seq(|p.targets|, t requires 0 <= t < |p.targets| => (p.firstKey + t, p.targets[t]))
  }

  /** The case guard: register A equals the key. */
  function CaseTest(ctx: Ctx, a: int, key: int): Expr {
    Eq(RegVar(V, a), Bv(key, ctx.width))
  }

  /** One clause per case, in table order. */
  function CaseRules(ctx: Ctx, u: Updates, a: int, cases: seq<(int, int)>): seq<Expr> {
    seq(|cases|, t requires 0 <= t < |cases| =>
      Implies(And([RAt(ctx, ctx.codeAddress, u), CaseTest(ctx, a, cases[t].0)]), RAt(ctx, cases[t].1, u)))
  }

  /** `negationString` after the cases: `and(true, eq_0, eq_1, …)`, nested
      to the left. */
  function NegationString(ctx: Ctx, a: int, cases: seq<(int, int)>): Expr {
    if |cases| == 0 then True
    else And([NegationString(ctx, a, cases[..|cases| - 1]), CaseTest(ctx, a, cases[|cases| - 1].0)])
  }

  /** packed-switch and sparse-switch: a clause per case of the table found
      for the payload, then the fall-through clause guarded by the negated
      `negationString` (`not(false)` when no table is found). */
  function SwitchRules(ctx: Ctx, u: Updates, a: int, table: Option<seq<(int, int)>>): seq<Expr> {
    var neg := if table.Some? then NegationString(ctx, a, table.value) else False;
    (if table.Some? then CaseRules(ctx, u, a, table.value) else [])
    + [Implies(And([RAt(ctx, ctx.codeAddress, u), Not(neg)]), RAt(ctx, ctx.nextCode, u))]
  }

  /** `negationString` holds exactly when A equals every key at once. */
  lemma {:induction false} NegationStringMeaning(ctx: Ctx, a: int, cases: seq<(int, int)>, val: Valuation)
    requires val.width == ctx.width
    ensures Eval(NegationString(ctx, a, cases), val)
         == Some(forall t :: 0 <= t < |cases| ==> val.value(a) % Pow2(val.width) == cases[t].0 % Pow2(val.width))
  {
    if |cases| > 0 {
      var init := cases[..|cases| - 1];
      NegationStringMeaning(ctx, a, init, val);
      var x, p := val.value(a) % Pow2(val.width), Pow2(val.width);
      EvalPair(NegationString(ctx, a, init), CaseTest(ctx, a, cases[|cases| - 1].0), val);
      assert (forall t :: 0 <= t < |cases| ==> x == cases[t].0 % p)
          == ((forall t :: 0 <= t < |init| ==> x == init[t].0 % p) && x == cases[|cases| - 1].0 % p);
    }
  }

  /** The guard of the fall-through clause. */
  function FallThroughGuard(ctx: Ctx, a: int, table: Option<seq<(int, int)>>): Expr {
    Not(if table.Some? then NegationString(ctx, a, table.value) else False)
  }

  /** The switch clauses: one per case, leading to the case's target under
      the case test, then the fall-through clause to the next address. */
  lemma SwitchShape(ctx: Ctx, u: Updates, a: int, table: Option<seq<(int, int)>>)
    ensures var rs := SwitchRules(ctx, u, a, table);
      var n := if table.Some? then |table.value| else 0;
      |rs| == n + 1
      && rs[n] == Implies(And([RAt(ctx, ctx.codeAddress, u), FallThroughGuard(ctx, a, table)]), RAt(ctx, ctx.nextCode, u))
      && forall t :: 0 <= t < n ==>
           rs[t] == Implies(And([RAt(ctx, ctx.codeAddress, u), CaseTest(ctx, a, table.value[t].0)]), RAt(ctx, table.value[t].1, u))
  {
    if table.Some? {
      var rs := SwitchRules(ctx, u, a, table);
      forall t | 0 <= t < |table.value|
        ensures rs[t] == CaseRules(ctx, u, a, table.value)[t]
      {
      }
    }
  }

  /** A case is taken when A holds its key, modulo 2^width. */
  lemma CaseTestMeaning(ctx: Ctx, a: int, key: int, val: Valuation)
    requires val.width == ctx.width
    ensures Eval(CaseTest(ctx, a, key), val) == Some(val.value(a) % Pow2(val.width) == key % Pow2(val.width))
  {
  }

  /** The fall-through is taken unless A equals all keys at once; without a
      table it is always taken. */
  lemma {:induction false} FallThroughMeaning(ctx: Ctx, a: int, table: Option<seq<(int, int)>>, val: Valuation)
    requires val.width == ctx.width
    ensures table.None? ==> Eval(FallThroughGuard(ctx, a, table), val) == Some(true)
    ensures table.Some? ==>
      Eval(FallThroughGuard(ctx, a, table), val)
      == Some(!forall t :: 0 <= t < |table.value| ==> val.value(a) % Pow2(val.width) == table.value[t].0 % Pow2(val.width))
  {
    if table.Some? {
      NegationStringMeaning(ctx, a, table.value, val);
    }
  }

  /** With two keys that differ modulo 2^width the fall-through guard holds
      for every value of A, the values that take a case included: the
      negation chain is a conjunction where a disjunction was meant. */
  lemma FallThroughAlwaysTaken(ctx: Ctx, a: int, cases: seq<(int, int)>, val: Valuation)
    requires val.width == ctx.width && |cases| >= 2
    requires cases[0].0 % Pow2(ctx.width) != cases[1].0 % Pow2(ctx.width)
    ensures Eval(FallThroughGuard(ctx, a, Some(cases)), val) == Some(true)
  {
    FallThroughMeaning(ctx, a, Some(cases), val);
    if val.value(a) % Pow2(val.width) == cases[0].0 % Pow2(ctx.width) {
      assert val.value(a) % Pow2(val.width) != cases[1].0 % Pow2(ctx.width);
    }
  }

  /** With a single key the fall-through guard holds exactly when A differs
      from it. */
  lemma FallThroughSingleKey(ctx: Ctx, a: int, cases: seq<(int, int)>, val: Valuation)
    requires val.width == ctx.width && |cases| == 1
    ensures Eval(FallThroughGuard(ctx, a, Some(cases)), val)
         == Some(val.value(a) % Pow2(val.width) != cases[0].0 % Pow2(val.width))
  {
    FallThroughMeaning(ctx, a, Some(cases), val);
  }

  /** A packed table's cases are taken at consecutive keys. */
  lemma PackedKeysConsecutive(ctx: Ctx, u: Updates, a: int, p: PackedTable, t: int)
    requires 0 <= t < |p.targets|
    ensures SwitchRules(ctx, u, a, Some(PackedCases(p)))[t]
         == Implies(And([RAt(ctx, ctx.codeAddress, u), CaseTest(ctx, a, p.firstKey + t)]), RAt(ctx, p.targets[t], u))
  {
    assert SwitchRules(ctx, u, a, Some(PackedCases(p)))[t] == CaseRules(ctx, u, a, PackedCases(p))[t];
  }
}
