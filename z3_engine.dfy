/**
 * The Horn-clause store of the solver front end: declared relations, rules
 * and sink queries, and the builders of the per-program-point relation `R`
 * and of the method-summary relation `RES` in the three-component layout
 * (value, local label, block label per register).
 */
module Z3 {
  import opened Wrappers
  import opened JavaInt
  import opened Exprs
  import opened Queries

  /** What a missing or null update entry is replaced by. */
  datatype Defaults =
    | Variables          // the register's own variables V(i), L(i), B(i)
    | Zeros(width: int)  // bit-vector 0 and false, false

  function Default(d: Defaults, component: nat, i: int): Expr
    requires component < 3
  {
    match d
    case Variables => RegVar(if component == 0 then V else if component == 1 then L else B, i)
    case Zeros(w) => if component == 0 then Bv(0, w) else False
  }

  /** The argument vector of a three-component predicate over `size` registers:
      first all values, then all local labels, then all block labels. */
  function Args3(rUp: map<int, Expr>, rUpL: map<int, Expr>, rUpB: map<int, Expr>,
                 size: nat, d: Defaults): seq<Expr>
  {
    seq(size, i => ArgOr(rUp, i, Default(d, 0, i)))
    + seq(size, i => ArgOr(rUpL, i, Default(d, 1, i)))
    + seq(size, i => ArgOr(rUpB, i, Default(d, 2, i)))
  }

  /** The `size` bit-vector sorts followed by `2 * size` Boolean sorts. */
  function Domains(size: nat, bvSize: int): (ds: seq<Sort>)
    ensures |ds| == 3 * size
    ensures forall k :: 0 <= k < size ==> ds[k] == BvSort(bvSize)
    ensures forall k :: size <= k < 3 * size ==> ds[k] == BoolSort
  {
    seq(3 * size, k => if k < size then BvSort(bvSize) else BoolSort)
  }

  function RName(c: string, m: string, pc: int): string {
    "R_" + c + "_" + m + "_" + IntToString(pc)
  }

  function RPredDecl(c: string, m: string, pc: int, size: nat, bvSize: int): FuncDecl {
    FuncDecl(RName(c, m, pc), Domains(size, bvSize), BoolSort)
  }

  function ResPredDecl(c: string, m: string, size: nat, bvSize: int): FuncDecl {
    FuncDecl("RES_" + c + "_" + m, Domains(size, bvSize), BoolSort)
  }

  /** Within one method, the relation names of two program points coincide
      exactly when the program points do. */
  lemma RNameInjective(c: string, m: string, pc1: int, pc2: int)
    ensures RName(c, m, pc1) == RName(c, m, pc2) <==> pc1 == pc2
  {
    var pre := "R_" + c + "_" + m + "_";
    assert RName(c, m, pc1) == pre + IntToString(pc1);
    assert RName(c, m, pc2) == pre + IntToString(pc2);
    if RName(c, m, pc1) == RName(c, m, pc2) {
      assert IntToString(pc1) == (pre + IntToString(pc1))[|pre|..];
      assert IntToString(pc2) == (pre + IntToString(pc2))[|pre|..];
      IntToStringInjective(pc1, pc2);
    }
  }

  /** A program-point relation is never a method-summary relation. */
  lemma RNameNotResName(c: string, m: string, pc: int, c': string, m': string)
    ensures RName(c, m, pc) != "RES_" + c' + "_" + m'
  {
    assert RName(c, m, pc)[1] == '_';
    assert ("RES_" + c' + "_" + m')[1] == 'E';
  }

  /** The abstract-heap relation H(class, instance, field, value, high, block). */
  function HPred(cname: Expr, inst: Expr, element: Expr, value: Expr, high: Expr, block: Expr): Expr {
    App(HRel, [cname, inst, element, value, high, block])
  }

  function HiPred(cname: Expr, inst: Expr, value: Expr, high: Expr, block: Expr): Expr {
    App(HiRel, [cname, inst, value, high, block])
  }

  function IPred(cname: Expr, inst: Expr, value: Expr, high: Expr, block: Expr): Expr {
    App(IRel, [cname, inst, value, high, block])
  }

  function SPred(v1: Expr, v2: Expr, v3: Expr, v4: Expr, v5: Expr): Expr {
    App(SRel, [v1, v2, v3, v4, v5])
  }

  /** The declarations of H, Hi, I and S made when the engine starts. */
  function InitialDecls(bvSize: int): seq<FuncDecl> {
    var bv := BvSort(bvSize);
    [FuncDecl("H", [bv, bv, bv, bv, BoolSort, BoolSort], BoolSort),
     FuncDecl("HI", [bv, bv, bv, BoolSort, BoolSort], BoolSort),
     FuncDecl("I", [bv, bv, bv, BoolSort, BoolSort], BoolSort),
     FuncDecl("S", [IntSort, IntSort, bv, BoolSort, BoolSort], BoolSort)]
  }

  /** The rule added when the engine starts: an object's "parent" and "result"
      entries and the parent's entries give the parent a "result" entry. */
  function MainRule(bvSize: int): Expr {
    var cn, f := NamedVar(Cn), NamedVar(F);
    var b1 := HPred(cn, cn, Bv(StringHash("parent"), bvSize), f, NamedVar(Lf), NamedVar(Bf));
    var b2 := HPred(cn, cn, Bv(StringHash("result"), bvSize), NamedVar(Val), NamedVar(Lval), NamedVar(Bval));
    var b3 := HPred(f, f, NamedVar(Fpp), NamedVar(Vfp), NamedVar(Lfp), NamedVar(Bfp));
    var b4 := HPred(f, f, Bv(StringHash("result"), bvSize), NamedVar(Val), NamedVar(Lval), NamedVar(Bval));
    Implies(And([b1, b2, b3]), b4)
  }

  /** `bvult` as written: it builds an unsigned less-or-equal. */
  function Bvult(lhs: Expr, rhs: Expr): (e: Expr)
    ensures e.BvCompare? && e.cmp == Ule && e.cmp != Ult && e.a == lhs && e.b == rhs
  {
    BvCompare(Ule, lhs, rhs)
  }

  /** `bvsub` as written: it builds an arithmetic right shift. */
  function Bvsub(lhs: Expr, rhs: Expr): (e: Expr)
    ensures e.BvBin? && e.op == Ashr && e.op != Sub && e.a == lhs && e.b == rhs
  {
    BvBin(Ashr, lhs, rhs)
  }

  /** The argument loop shared by `rPred`, `rInvokePred` and `resPred`: a
      missing or null entry of an update map is replaced by its default. */
  method FillArgs(rUp: map<int, Expr>, rUpL: map<int, Expr>, rUpB: map<int, Expr>,
                  size: nat, d: Defaults) returns (args: seq<Expr>)
    ensures args == Args3(rUp, rUpL, rUpB, size, d)
  {
    var e := new Expr[3 * size];
    var i, j, k := 0, size, 2 * size;
    while i < size
      invariant 0 <= i <= size && j == size + i && k == 2 * size + i
      invariant Filled(e[..], rUp, rUpL, rUpB, size, d, i)
    {
      var ei := Get(rUp, i);
      if ei == Null { ei := Default(d, 0, i); }
      var ej := Get(rUpL, i);
      if ej == Null { ej := Default(d, 1, i); }
      var ek := Get(rUpB, i);
      if ek == Null { ek := Default(d, 2, i); }
      ghost var before := e[..];
      e[i], e[j], e[k] := ei, ej, ek;
      FilledStep(before, e[..], rUp, rUpL, rUpB, size, d, i, ei, ej, ek);
      i, j, k := i + 1, j + 1, k + 1;
    }
    args := e[..];
    FilledAll(args, rUp, rUpL, rUpB, size, d);
  }

  /** The first i positions of each of the three blocks of `a` hold their
      entry or its default. */
  predicate Filled(a: seq<Expr>, rUp: map<int, Expr>, rUpL: map<int, Expr>, rUpB: map<int, Expr>,
                   size: nat, d: Defaults, i: nat) {
    |a| == 3 * size && i <= size
    && (forall t :: 0 <= t < i ==> a[t] == ArgOr(rUp, t, Default(d, 0, t)))
    && (forall t :: size <= t < size + i ==> a[t] == ArgOr(rUpL, t - size, Default(d, 1, t - size)))
    && (forall t :: 2 * size <= t < 2 * size + i ==> a[t] == ArgOr(rUpB, t - 2 * size, Default(d, 2, t - 2 * size)))
  }

  /** One pass of the loop fills position i of each block. */
  lemma FilledStep(before: seq<Expr>, after: seq<Expr>, rUp: map<int, Expr>, rUpL: map<int, Expr>, rUpB: map<int, Expr>,
                   size: nat, d: Defaults, i: nat, ei: Expr, ej: Expr, ek: Expr)
    requires i < size && Filled(before, rUp, rUpL, rUpB, size, d, i)
    requires after == before[i := ei][size + i := ej][2 * size + i := ek]
    requires ei == ArgOr(rUp, i, Default(d, 0, i)) && ej == ArgOr(rUpL, i, Default(d, 1, i))
    requires ek == ArgOr(rUpB, i, Default(d, 2, i))
    ensures Filled(after, rUp, rUpL, rUpB, size, d, i + 1)
  {
  }

  /** At the end of the loop every position is filled. */
  lemma FilledAll(a: seq<Expr>, rUp: map<int, Expr>, rUpL: map<int, Expr>, rUpB: map<int, Expr>, size: nat, d: Defaults)
    requires Filled(a, rUp, rUpL, rUpB, size, d, size)
    ensures a == Args3(rUp, rUpL, rUpB, size, d)
  {
    Args3Ext(a, rUp, rUpL, rUpB, size, d);
  }

  /** A vector with the right entry at each position is the `Args3` vector. */
  lemma Args3Ext(a: seq<Expr>, rUp: map<int, Expr>, rUpL: map<int, Expr>, rUpB: map<int, Expr>,
                 size: nat, d: Defaults)
    requires |a| == 3 * size
    requires forall t :: 0 <= t < size ==> a[t] == ArgOr(rUp, t, Default(d, 0, t))
    requires forall t :: size <= t < 2 * size ==> a[t] == ArgOr(rUpL, t - size, Default(d, 1, t - size))
    requires forall t :: 2 * size <= t < 3 * size ==> a[t] == ArgOr(rUpB, t - 2 * size, Default(d, 2, t - 2 * size))
    ensures a == Args3(rUp, rUpL, rUpB, size, d)
  {
    var r := Args3(rUp, rUpL, rUpB, size, d);
    assert a[..size] == r[..size];
    assert a[size..2 * size] == r[size..2 * size];
    assert a[2 * size..] == r[2 * size..];
    assert a == a[..size] + a[size..2 * size] + a[2 * size..];
    assert r == r[..size] + r[size..2 * size] + r[2 * size..];
  }

  class Z3Engine {
    const bvSize: int
    var mRules: seq<Expr>
    var mFuncs: seq<FuncDecl>
    var mQueries: seq<Query>
    var mCurrentQuery: Option<Query>

    function QueryView(): QueryState
      reads this
    {
      QueryState(mQueries, mCurrentQuery)
    }

    /** Declares H, Hi, I and S and adds the main heap rule. */
    constructor (bvSize: int)
      ensures this.bvSize == bvSize
      ensures mFuncs == InitialDecls(bvSize)
      ensures mRules == [MainRule(bvSize)]
      ensures mQueries == [] && mCurrentQuery == None
    {
      this.bvSize := bvSize;
      mQueries := [];
      mCurrentQuery := None;
      mFuncs := [];
      mRules := [];
      new;
      var bv := BvSort(bvSize);
      DeclareRel(FuncDecl("H", [bv, bv, bv, bv, BoolSort, BoolSort], BoolSort));
      DeclareRel(FuncDecl("HI", [bv, bv, bv, BoolSort, BoolSort], BoolSort));
      DeclareRel(FuncDecl("I", [bv, bv, bv, BoolSort, BoolSort], BoolSort));
      DeclareRel(FuncDecl("S", [IntSort, IntSort, bv, BoolSort, BoolSort], BoolSort));
      AddRule(MainRule(bvSize));
    }

    /** Appends one rule; nothing else changes. */
    method AddRule(rule: Expr)
      modifies this`mRules
      ensures mRules == old(mRules) + [rule]
    {
      mRules := mRules + [rule];
    }

    /** Appends one relation declaration; nothing else changes. */
    method DeclareRel(funcDecl: FuncDecl)
      modifies this`mFuncs
      ensures mFuncs == old(mFuncs) + [funcDecl]
    {
      mFuncs := mFuncs + [funcDecl];
    }

    /** Declares a relation given by name and sorts. */
    method DeclareRelByName(name: string, domain: seq<Sort>, range: Sort)
      modifies this`mFuncs
      ensures mFuncs == old(mFuncs) + [FuncDecl(name, domain, range)]
    {
      DeclareRel(FuncDecl(name, domain, range));
    }

    method RPredDef(c: string, m: string, pc: int, size: nat) returns (f: FuncDecl)
      modifies this`mFuncs
      ensures f.name == "R_" + c + "_" + m + "_" + IntToString(pc)
      ensures f.domain == Domains(size, bvSize) && f.range == BoolSort
      ensures mFuncs == old(mFuncs) + [f]
    {
      f := FuncDecl("R_" + c + "_" + m + "_" + IntToString(pc), Domains(size, bvSize), BoolSort);
      DeclareRel(f);
    }

    /** `R_c_m_pc` applied to the 3 * (numArg + numReg + 1) arguments of
        `Args3` with the register variables as defaults; every call declares
        the relation once more. */
    method RPred(c: string, m: string, pc: int, rUp: map<int, Expr>, rUpL: map<int, Expr>,
                 rUpB: map<int, Expr>, numArg: nat, numReg: nat) returns (atom: Expr)
      modifies this`mFuncs
      ensures var size := numArg + numReg + 1;
        atom == App(Declared(RPredDecl(c, m, pc, size, bvSize)), Args3(rUp, rUpL, rUpB, size, Variables))
      ensures mFuncs == old(mFuncs) + [RPredDecl(c, m, pc, numArg + numReg + 1, bvSize)]
    {
      var size := numArg + numReg + 1;
      var r := RPredDef(c, m, pc, size);
      var e := FillArgs(rUp, rUpL, rUpB, size, Variables);
      atom := App(Declared(r), e);
    }

    /** The calling-context form of `R`: the same layout, missing entries
        default to bit-vector 0 of width `size`, false and false. */
    method RInvokePred(c: string, m: string, pc: int, rUp: map<int, Expr>, rUpL: map<int, Expr>,
                       rUpB: map<int, Expr>, numArg: nat, numReg: nat, size: int) returns (atom: Expr)
      modifies this`mFuncs
      ensures var n := numArg + numReg + 1;
        atom == App(Declared(RPredDecl(c, m, pc, n, bvSize)), Args3(rUp, rUpL, rUpB, n, Zeros(size)))
      ensures mFuncs == old(mFuncs) + [RPredDecl(c, m, pc, numArg + numReg + 1, bvSize)]
    {
      var arraySize := numArg + numReg + 1;
      var f := RPredDef(c, m, pc, arraySize);
      var e := FillArgs(rUp, rUpL, rUpB, arraySize, Zeros(size));
      atom := App(Declared(f), e);
    }

    method ResPredDef(c: string, m: string, size: nat) returns (f: FuncDecl)
      modifies this`mFuncs
      ensures f == ResPredDecl(c, m, size, bvSize)
      ensures mFuncs == old(mFuncs) + [f]
    {
      f := FuncDecl("RES_" + c + "_" + m, Domains(size, bvSize), BoolSort);
      DeclareRel(f);
    }

    /** `RES_c_m` over the arguments and the return register (numArg + 1 slots). */
    method ResPred(c: string, m: string, rUp: map<int, Expr>, rUpL: map<int, Expr>,
                   rUpB: map<int, Expr>, numArg: nat) returns (atom: Expr)
      modifies this`mFuncs
      ensures atom == App(Declared(ResPredDecl(c, m, numArg + 1, bvSize)),
                          Args3(rUp, rUpL, rUpB, numArg + 1, Variables))
      ensures mFuncs == old(mFuncs) + [ResPredDecl(c, m, numArg + 1, bvSize)]
    {
      var size := numArg + 1;
      var res := ResPredDef(c, m, size);
      var e := FillArgs(rUp, rUpL, rUpB, size, Variables);
      atom := App(Declared(res), e);
    }

    /** Merges the query into the current one when their class, method, pc
        and sink agree; otherwise retires the current one and starts anew. */
    method AddQuery(query: Query)
      modifies this`mQueries, this`mCurrentQuery
      ensures QueryView() == AddQueryStep(old(QueryView()), query)
      ensures old(mCurrentQuery).Some? && SameKey(old(mCurrentQuery).value, query) ==>
        mQueries == old(mQueries)
        && mCurrentQuery == Some(old(mCurrentQuery).value.(query := Or([old(mCurrentQuery).value.query, query.query])))
      ensures !(old(mCurrentQuery).Some? && SameKey(old(mCurrentQuery).value, query)) ==>
        mCurrentQuery == Some(query)
        && mQueries == old(mQueries) + (if old(mCurrentQuery).Some? then [old(mCurrentQuery).value] else [])
    {
      var sameAsCurrentQuery := mCurrentQuery.Some? && SameKey(mCurrentQuery.value, query);
      if sameAsCurrentQuery {
        mCurrentQuery := Some(mCurrentQuery.value.(query := Or([mCurrentQuery.value.query, query.query])));
      } else {
        if mCurrentQuery.Some? { mQueries := mQueries + [mCurrentQuery.value]; }
        mCurrentQuery := Some(query);
      }
    }

    /** The first step of running the queries: the cached query is added. */
    method FlushQueries()
      modifies this`mQueries
      ensures mQueries == Flushed(old(QueryView()))
    {
      if mCurrentQuery.Some? { mQueries := mQueries + [mCurrentQuery.value]; }
    }
  }
}
