/**
 * The flow-sensitive Horn-clause store and its predicate builders.
 *
 * A flow-sensitive program point carries four components per register
 * (value V, high H, local pointer L, global pointer G) and five per
 * local-heap slot (value, high, local, global, and the filter flag F).
 * An instruction describes its effect as nine update maps; the predicate
 * builders fill every argument position from the matching map, falling back
 * to a default when the entry is missing or null.
 */
module FsEngine {
  import opened Wrappers
  import opened Exprs
  import opened Queries

  /** The five update maps of a local heap: value, high, local, global, filter. */
  datatype HeapMaps = HeapMaps(v: map<int, Expr>, h: map<int, Expr>, l: map<int, Expr>,
                               g: map<int, Expr>, f: map<int, Expr>)

  /** The nine update maps of a program point: four register maps and the local heap. */
  datatype Updates = Updates(v: map<int, Expr>, h: map<int, Expr>, l: map<int, Expr>,
                             g: map<int, Expr>, lh: HeapMaps)

  const NoHeap: HeapMaps := HeapMaps(map[], map[], map[], map[], map[])
  const NoUpdates: Updates := Updates(map[], map[], map[], map[], NoHeap)

  /** The update map setting the slots lo .. hi-1 to `e`, as a counting loop
      of `put`s builds it. */
  function Fill(lo: int, hi: int, e: Expr): map<int, Expr>
    decreases hi - lo
  {
    if hi <= lo then map[] else Fill(lo, hi - 1, e)[hi - 1 := e]
  }

  lemma {:induction false} FillLookup(lo: int, hi: int, e: Expr, k: int)
    ensures k in Fill(lo, hi, e) <==> lo <= k < hi
    ensures k in Fill(lo, hi, e) ==> Fill(lo, hi, e)[k] == e
    decreases hi - lo
  {
    if hi > lo {
      FillLookup(lo, hi - 1, e, k);
    }
  }

  /** A slot inside the range reads `e`, one outside it the default. */
  lemma FillArg(lo: int, hi: int, e: Expr, k: int, d: Expr)
    requires e != Null
    ensures ArgOr(Fill(lo, hi, e), k, d) == if lo <= k < hi then e else d
  {
    FillLookup(lo, hi, e, k);
  }

  /** Putting `e` at a slot inside or just past the range extends the range. */
  lemma FillExtend(lo: int, hi: int, e: Expr, k: int)
    requires lo <= k <= hi
    ensures Fill(lo, hi, e)[k := e] == Fill(lo, if hi > k + 1 then hi else k + 1, e)
  {
    var hi' := if hi > k + 1 then hi else k + 1;
    forall x | true
      ensures (x in Fill(lo, hi, e)[k := e]) == (x in Fill(lo, hi', e))
      ensures x in Fill(lo, hi', e) ==> Fill(lo, hi, e)[k := e][x] == Fill(lo, hi', e)[x]
    {
      FillLookup(lo, hi, e, x);
      FillLookup(lo, hi', e, x);
    }
  }

  /** Generators of the values a counting loop of `put`s stores at slot k. */
  function ConstGen(e: Expr): int -> Expr {
    k => e
  }

  function VarGen(kind: VarKind): int -> Expr {
    k => RegVar(kind, k)
  }

  /** The variable `shift` places after slot k. */
  function ShiftGen(kind: VarKind, shift: int): int -> Expr {
    k => RegVar(kind, k + shift)
  }

  /** `or(a.get(k), b.get(k))`, nulls included. */
  function JoinGen(a: map<int, Expr>, b: map<int, Expr>): int -> Expr {
    k => Or([Get(a, k), Get(b, k)])
  }

  /** The map `m` after `put(k, f(k))` for k = lo .. hi-1. */
  function Override(m: map<int, Expr>, lo: int, hi: int, f: int -> Expr): map<int, Expr>
    decreases hi - lo
  {
    if hi <= lo then m else Override(m, lo, hi - 1, f)[hi - 1 := f(hi - 1)]
  }

  /** A slot of the range holds the generated value, every other slot what `m` held. */
  lemma {:induction false} OverrideGet(m: map<int, Expr>, lo: int, hi: int, f: int -> Expr, k: int)
    ensures k in Override(m, lo, hi, f) <==> k in m || lo <= k < hi
    ensures Get(Override(m, lo, hi, f), k) == if lo <= k < hi then f(k) else Get(m, k)
    decreases hi - lo
  {
    if hi > lo {
      OverrideGet(m, lo, hi - 1, f, k);
    }
  }

  /** The number of passes of a loop that starts at 0, stops at `size` and
      advances by two. */
  function Trips(size: int): nat {
    if size <= 0 then 0 else (size + 1) / 2
  }

  /** The map `m` after `put(lo + 2j, e)` for j = 0 .. n-1. */
  function Strided(m: map<int, Expr>, lo: int, n: nat, e: Expr): map<int, Expr> {
    if n == 0 then m else Strided(m, lo, n - 1, e)[lo + 2 * (n - 1) := e]
  }

  /** Only every second slot of the range is written. */
  lemma {:induction false} StridedGet(m: map<int, Expr>, lo: int, n: nat, e: Expr, k: int)
    ensures k in Strided(m, lo, n, e) <==> k in m || (lo <= k < lo + 2 * n && (k - lo) % 2 == 0)
    ensures Get(Strided(m, lo, n, e), k)
         == if lo <= k < lo + 2 * n && (k - lo) % 2 == 0 then e else Get(m, k)
  {
    if n > 0 {
      StridedGet(m, lo, n - 1, e, k);
    }
  }

  /** What a missing or null entry is replaced by. */
  datatype Defaults =
    | Variables          // the slot's own variable
    | Zeros(width: int)  // bit-vector 0 for values, false for the Boolean components

  predicate IsValueKind(k: VarKind) {
    k == V || k == LHV
  }

  function Default(d: Defaults, kind: VarKind, i: int): Expr {
    match d
    case Variables => RegVar(kind, i)
    case Zeros(w) => if IsValueKind(kind) then Bv(0, w) else False
  }

  /** The argument at position `p`: the V, H, L, G blocks over `size` registers,
      then the five local-heap blocks over `lhSize` slots. */
  function Slot(u: Updates, size: nat, lhSize: nat, d: Defaults, p: int): Expr {
    if p < size then ArgOr(u.v, p, Default(d, V, p))
    else if p < 2 * size then ArgOr(u.h, p - size, Default(d, H, p - size))
    else if p < 3 * size then ArgOr(u.l, p - 2 * size, Default(d, L, p - 2 * size))
    else if p < 4 * size then ArgOr(u.g, p - 3 * size, Default(d, G, p - 3 * size))
    else
      var q := p - 4 * size;
      if q < lhSize then ArgOr(u.lh.v, q, Default(d, LHV, q))
      else if q < 2 * lhSize then ArgOr(u.lh.h, q - lhSize, Default(d, LHH, q - lhSize))
      else if q < 3 * lhSize then ArgOr(u.lh.l, q - 2 * lhSize, Default(d, LHL, q - 2 * lhSize))
      else if q < 4 * lhSize then ArgOr(u.lh.g, q - 3 * lhSize, Default(d, LHG, q - 3 * lhSize))
      else ArgOr(u.lh.f, q - 4 * lhSize, Default(d, LHF, q - 4 * lhSize))
  }

  /** The argument vector of the nine blocks. */
  function FsArgs(u: Updates, size: nat, lhSize: nat, d: Defaults): seq<Expr> {
    seq(4 * size + 5 * lhSize, p => Slot(u, size, lhSize, d, p))
  }

  /** `R_c_m_pc` over the numArg + numReg + 1 registers (locals, the return slot
      numReg, then the parameters) and the local heap. */
  function FsRPred(c: string, m: string, pc: int, u: Updates, numArg: nat, numReg: nat, lhSize: nat): Expr {
    App(R(c, m, pc), FsArgs(u, numArg + numReg + 1, lhSize, Variables))
  }

  /** The callee-entry form of `R`: missing entries default to 0 and false. */
  function FsRPredInvok(c: string, m: string, pc: int, u: Updates, numArg: nat, numReg: nat,
                        width: int, lhSize: nat): Expr {
    App(R(c, m, pc), FsArgs(u, numArg + numReg + 1, lhSize, Zeros(width)))
  }

  /** The method summary `RES_c_m` over the numArg arguments, the result slot and the local heap. */
  function FsResPred(c: string, m: string, u: Updates, numArg: nat, lhSize: nat): Expr {
    App(Res(c, m), FsArgs(u, numArg + 1, lhSize, Variables))
  }

  /** The abstract-heap relation H(class, instance, field, value, high, block). */
  function FsHPred(cname: Expr, inst: Expr, field: Expr, value: Expr, high: Expr, block: Expr): Expr {
    App(HRel, [cname, inst, field, value, high, block])
  }

  /** The static-field relation S(class, field, value, high, block). */
  function FsSPred(cname: Expr, field: Expr, value: Expr, high: Expr, block: Expr): Expr {
    App(SRel, [cname, field, value, high, block])
  }

  /** The register part of the argument vector: four blocks of `size`, and at
      every position the override when the map has a non-null entry, otherwise
      the default. */
  lemma FsArgsRegisters(u: Updates, size: nat, lhSize: nat, d: Defaults, i: int)
    requires 0 <= i < size
    ensures var a := FsArgs(u, size, lhSize, d);
      |a| == 4 * size + 5 * lhSize
      && a[i] == ArgOr(u.v, i, Default(d, V, i))
      && a[size + i] == ArgOr(u.h, i, Default(d, H, i))
      && a[2 * size + i] == ArgOr(u.l, i, Default(d, L, i))
      && a[3 * size + i] == ArgOr(u.g, i, Default(d, G, i))
  {
    FsArgsAt(u, size, lhSize, d, i);
    FsArgsAt(u, size, lhSize, d, size + i);
    FsArgsAt(u, size, lhSize, d, 2 * size + i);
    FsArgsAt(u, size, lhSize, d, 3 * size + i);
  }

  /** The local-heap part of the argument vector: five blocks of `lhSize` after
      the registers, filled by the same rule. */
  lemma FsArgsHeap(u: Updates, size: nat, lhSize: nat, d: Defaults, j: int)
    requires 0 <= j < lhSize
    ensures |FsArgs(u, size, lhSize, d)| == 4 * size + 5 * lhSize
    ensures FsArgs(u, size, lhSize, d)[4 * size + j] == ArgOr(u.lh.v, j, Default(d, LHV, j))
    ensures FsArgs(u, size, lhSize, d)[4 * size + lhSize + j] == ArgOr(u.lh.h, j, Default(d, LHH, j))
    ensures FsArgs(u, size, lhSize, d)[4 * size + 2 * lhSize + j] == ArgOr(u.lh.l, j, Default(d, LHL, j))
    ensures FsArgs(u, size, lhSize, d)[4 * size + 3 * lhSize + j] == ArgOr(u.lh.g, j, Default(d, LHG, j))
    ensures FsArgs(u, size, lhSize, d)[4 * size + 4 * lhSize + j] == ArgOr(u.lh.f, j, Default(d, LHF, j))
  {
    SlotHeap(u, size, lhSize, d, j);
    FsArgsAt(u, size, lhSize, d, 4 * size + j);
    FsArgsAt(u, size, lhSize, d, 4 * size + lhSize + j);
    FsArgsAt(u, size, lhSize, d, 4 * size + 2 * lhSize + j);
    FsArgsAt(u, size, lhSize, d, 4 * size + 3 * lhSize + j);
    FsArgsAt(u, size, lhSize, d, 4 * size + 4 * lhSize + j);
  }

  lemma FsArgsAt(u: Updates, size: nat, lhSize: nat, d: Defaults, p: int)
    requires 0 <= p < 4 * size + 5 * lhSize
    ensures |FsArgs(u, size, lhSize, d)| == 4 * size + 5 * lhSize
    ensures FsArgs(u, size, lhSize, d)[p] == Slot(u, size, lhSize, d, p)
  {
  }

  /** The five local-heap slots of index j. */
  lemma SlotHeap(u: Updates, size: nat, lhSize: nat, d: Defaults, j: int)
    requires 0 <= j < lhSize
    ensures Slot(u, size, lhSize, d, 4 * size + j) == ArgOr(u.lh.v, j, Default(d, LHV, j))
    ensures Slot(u, size, lhSize, d, 4 * size + lhSize + j) == ArgOr(u.lh.h, j, Default(d, LHH, j))
    ensures Slot(u, size, lhSize, d, 4 * size + 2 * lhSize + j) == ArgOr(u.lh.l, j, Default(d, LHL, j))
    ensures Slot(u, size, lhSize, d, 4 * size + 3 * lhSize + j) == ArgOr(u.lh.g, j, Default(d, LHG, j))
    ensures Slot(u, size, lhSize, d, 4 * size + 4 * lhSize + j) == ArgOr(u.lh.f, j, Default(d, LHF, j))
  {
  }

  /** Without overrides every argument of `R` is the slot's own variable: the
      instruction leaves the whole state unchanged. */
  lemma NoUpdatesIsIdentity(size: nat, lhSize: nat, i: int, j: int)
    requires 0 <= i < size && 0 <= j < lhSize
    ensures var a := FsArgs(NoUpdates, size, lhSize, Variables);
      a[i] == RegVar(V, i) && a[size + i] == RegVar(H, i)
      && a[2 * size + i] == RegVar(L, i) && a[3 * size + i] == RegVar(G, i)
      && a[4 * size + j] == RegVar(LHV, j) && a[4 * size + lhSize + j] == RegVar(LHH, j)
      && a[4 * size + 2 * lhSize + j] == RegVar(LHL, j) && a[4 * size + 3 * lhSize + j] == RegVar(LHG, j)
      && a[4 * size + 4 * lhSize + j] == RegVar(LHF, j)
  {
    FsArgsRegisters(NoUpdates, size, lhSize, Variables, i);
    FsArgsHeap(NoUpdates, size, lhSize, Variables, j);
  }

  /** A null stored in an update map counts as no update at all. */
  lemma NullIsNoUpdate(u: Updates, i: nat, size: nat, lhSize: nat, d: Defaults)
    requires i < size
    ensures FsArgs(u.(v := u.v[i := Null]), size, lhSize, d)[i]
         == FsArgs(u.(v := u.v - {i}), size, lhSize, d)[i]
         == Default(d, V, i)
  {
  }

  /** The flow-sensitive store: rules, queries, and the local-heap layout it
      was initialised with (offset and size per allocation point). */
  class FSEngine {
    const bvSize: int
    var initialized: bool
    var localHeapSize: nat
    var offsets: map<int, int>
    var sizes: map<int, int>
    var mRules: seq<Expr>
    var mQueries: seq<Query>
    var mCurrentQuery: Option<Query>

    function QueryView(): QueryState
      reads this`mQueries, this`mCurrentQuery
    {
      QueryState(mQueries, mCurrentQuery)
    }

    /** The offset of an allocation point in the local heap (0 if it has none). */
    function GetOffset(instanceNum: int): int
      reads this
    {
      if instanceNum in offsets then offsets[instanceNum] else 0
    }

    /** The number of fields of an allocation point (0 if it has none). */
    function GetSize(instanceNum: int): int
      reads this
    {
      if instanceNum in sizes then sizes[instanceNum] else 0
    }

    constructor (bvSize: int)
      ensures this.bvSize == bvSize && !initialized
      ensures localHeapSize == 0 && offsets == map[] && sizes == map[]
      ensures mRules == [] && mQueries == [] && mCurrentQuery == None
    {
      this.bvSize := bvSize;
      initialized := false;
      localHeapSize := 0;
      offsets := map[];
      sizes := map[];
      mRules := [];
      mQueries := [];
      mCurrentQuery := None;
    }

    /** Records the local-heap layout computed by the analysis. */
    method Initialize(localHeapSize: nat, offsets: map<int, int>, sizes: map<int, int>)
      modifies this`initialized, this`localHeapSize, this`offsets, this`sizes
      ensures initialized && this.localHeapSize == localHeapSize
      ensures this.offsets == offsets && this.sizes == sizes
    {
      initialized := true;
      this.localHeapSize := localHeapSize;
      this.offsets := offsets;
      this.sizes := sizes;
    }

    /** Appends one rule; nothing else changes. */
    method AddRule(rule: Expr)
      modifies this`mRules
      ensures mRules == old(mRules) + [rule]
    {
      mRules := mRules + [rule];
    }

    /** The same merge-or-retire step as the solver front end's `addQuery`. */
    method AddQuery(query: Query)
      modifies this`mQueries, this`mCurrentQuery
      ensures QueryView() == AddQueryStep(old(QueryView()), query)
    {
      if mCurrentQuery.Some? && SameKey(mCurrentQuery.value, query) {
        mCurrentQuery := Some(mCurrentQuery.value.(query := Or([mCurrentQuery.value.query, query.query])));
      } else {
        if mCurrentQuery.Some? { mQueries := mQueries + [mCurrentQuery.value]; }
        mCurrentQuery := Some(query);
      }
    }
  }
}
