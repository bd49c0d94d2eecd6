/**
 * The truth of the guards the clause builder writes, under a concrete
 * assignment of the registers. Values are bit-vectors of one width: a
 * value variable denotes its register's value modulo 2^width, a literal
 * `Bv(k, width)` denotes k modulo 2^width, and the comparisons are the
 * unsigned ones. Terms outside this fragment have no value.
 */
module Guards {
  import opened Wrappers
  import opened Exprs

  function Pow2(w: nat): nat
    ensures Pow2(w) >= 1
  {
    if w == 0 then 1 else 2 * Pow2(w - 1)
  }

  /** Register values, values of the named bit-vector variables, Boolean
      variables, and the bit-vector width. */
  datatype Valuation = Valuation(value: int -> int, named: Named -> int, flag: (VarKind, int) -> bool, width: nat)

  predicate IsValue(kind: VarKind) {
    kind == V || kind == LHV || kind == LHCV
  }

  /** The unsigned number a bit-vector term denotes. */
  function Num(e: Expr, val: Valuation): Option<int> {
    match e
    case RegVar(kind, r) => if kind == V then Some(val.value(r) % Pow2(val.width)) else None
    case Bv(k, w) => if w == val.width then Some(k % Pow2(w)) else None
    case NamedVar(n) => Some(val.named(n) % Pow2(val.width))
    case _ => None
  }

  function Eval(e: Expr, val: Valuation): Option<bool>
    decreases e
  {
    match e
    case BoolLit(t) => Some(t)
    case RegVar(kind, r) => if IsValue(kind) then None else Some(val.flag(kind, r))
    case Not(e1) => var r := Eval(e1, val); if r.Some? then Some(!r.value) else None
    case And(args) => EvalAll(args, val)
    case Or(args) => EvalAny(args, val)
    case Eq(x, y) =>
      var nx, ny := Num(x, val), Num(y, val);
      if nx.Some? && ny.Some? then Some(nx.value == ny.value)
      else
        var ex, ey := Eval(x, val), Eval(y, val);
        if ex.Some? && ey.Some? then Some(ex.value == ey.value) else None
    case BvCompare(cmp, x, y) =>
      var nx, ny := Num(x, val), Num(y, val);
      if nx.Some? && ny.Some? then
        Some(match cmp
             case Ult => nx.value < ny.value
             case Ule => nx.value <= ny.value
             case Ugt => nx.value > ny.value
             case Uge => nx.value >= ny.value)
      else None
    case _ => None
  }

  /** A conjunction holds when every conjunct does. */
  function EvalAll(args: seq<Expr>, val: Valuation): Option<bool>
    decreases args
  {
    if |args| == 0 then Some(true)
    else
      var r0, rs := Eval(args[0], val), EvalAll(args[1..], val);
      if r0.Some? && rs.Some? then Some(r0.value && rs.value) else None
  }

  /** A disjunction holds when some disjunct does. */
  function EvalAny(args: seq<Expr>, val: Valuation): Option<bool>
    decreases args
  {
    if |args| == 0 then Some(false)
    else
      var r0, rs := Eval(args[0], val), EvalAny(args[1..], val);
      if r0.Some? && rs.Some? then Some(r0.value || rs.value) else None
  }

  /** And and Or of two terms. */
  lemma EvalPair(x: Expr, y: Expr, val: Valuation)
    ensures Eval(And([x, y]), val) == if Eval(x, val).Some? && Eval(y, val).Some? then Some(Eval(x, val).value && Eval(y, val).value) else None
    ensures Eval(Or([x, y]), val) == if Eval(x, val).Some? && Eval(y, val).Some? then Some(Eval(x, val).value || Eval(y, val).value) else None
  {
    assert [x, y][1..] == [y];
    assert [y][1..] == [];
    assert EvalAll([y], val) == if Eval(y, val).Some? then Some(Eval(y, val).value) else None;
    assert EvalAny([y], val) == if Eval(y, val).Some? then Some(Eval(y, val).value) else None;
    assert Eval(And([x, y]), val) == EvalAll([x, y], val);
    assert Eval(Or([x, y]), val) == EvalAny([x, y], val);
  }
}
