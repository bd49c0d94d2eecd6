/**
 * Symbolic Horn-clause terms. The solver's expression builders are kept as
 * uninterpreted constructors: the analysis only ever builds terms, it never
 * evaluates them.
 */
module Exprs {

  datatype Sort = BvSort(width: int) | BoolSort | IntSort

  /** Indexed variable families: the four components of a flow-sensitive
      register (value, high, local pointer, global pointer), the third
      component `B` of the older three-component layout, the five components
      of a local-heap slot, and their copies for a callee's local heap. */
  datatype VarKind =
    | V | H | L | G
    | B
    | LHV | LHH | LHL | LHG | LHF
    | LHCV | LHCH | LHCL | LHCG | LHCF

  /** The named scalar variables used in clause templates. */
  datatype Named =
    | F | Lf | Bf | Val | Lval | Bval | Cn
    | Rez | Hrez | Lrez | Grez | Vfp | Fpp | Lfp | Bfp

  datatype BvOp = Add | Sub | Mul | Udiv | Urem | BvAnd | BvOr | BvXor | Shl | Lshr | Ashr

  datatype BvCmp = Ult | Ule | Ugt | Uge

  /** Relation symbols. `R`/`Res` are the per-program-point and per-method
      summary relations; `H` is the abstract heap, `S` the static fields,
      `I` and `Hi` the intent relations, `ReachLH`/`CFilter` the local-heap
      reachability and filter relations. `Declared` applies a relation
      declared by name and sorts. */
  datatype Rel =
    | Declared(decl: FuncDecl)
    | R(c: string, m: string, pc: int)
    | Res(c: string, m: string)
    | HRel | HiRel | IRel | SRel | ReachLH | CFilter

  datatype Expr =
    | Null                              // a Java null read out of an update map
    | BoolLit(truth: bool)
    | Bv(bits: int, width: int)
    | IntLit(n: int)
    | RegVar(kind: VarKind, index: int)
    | NamedVar(name: Named)
    | And(args: seq<Expr>)
    | Or(args: seq<Expr>)
    | Not(e: Expr)
    | Eq(lhs: Expr, rhs: Expr)
    | Ite(cond: Expr, thn: Expr, els: Expr)
    | BvBin(op: BvOp, a: Expr, b: Expr)
    | BvNeg(a: Expr)
    | BvComplement(a: Expr)
    | BvCompare(cmp: BvCmp, a: Expr, b: Expr)
    | App(rel: Rel, args: seq<Expr>)
    | MapApp(rel: Rel, scalars: seq<Expr>, maps: seq<map<int, Expr>>)
    | Implies(body: Expr, head: Expr)

  const True: Expr := BoolLit(true)
  const False: Expr := BoolLit(false)

  /** A relation declaration: name, argument sorts, result sort. */
  datatype FuncDecl = FuncDecl(name: string, domain: seq<Sort>, range: Sort)

  /** The default-filling rule of the predicate builders: the entry of the
      update map when there is one and it is not null, otherwise the default. */
  function ArgOr(m: map<int, Expr>, i: int, d: Expr): Expr {
    if i in m && m[i] != Null then m[i] else d
  }

  /** `HashMap.get`: the stored value, or null for a missing key. */
  function Get(m: map<int, Expr>, i: int): Expr {
    if i in m then m[i] else Null
  }
}
