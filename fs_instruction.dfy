/**
 * The flow-sensitive clause emitter of one instruction: the nine update
 * maps it fills with `put` and empties with `clear`, the local-heap copies
 * of a callee, and the handlers of the opcode families, each appending to
 * the flow-sensitive store the clauses the specification functions of
 * modules FsInstr and FsHeap describe.
 */
module FsAnalysis {
  import opened Wrappers
  import opened JavaInt
  import opened Exprs
  import opened Queries
  import opened FsEngine
  import opened Layout
  import opened Hierarchy
  import opened FsInstr
  import opened FsHeap
  import opened Calls
  import opened Z3
  import opened FsInvoke

  // ---------------------------------------------------------------------
  // The counting loops of the handlers, over the maps they update

  /** The loop of `return`: `put(count, var(i))` for i = numRegLoc + 1 ..
      numRegLoc + numParLoc, count running from 0 alongside. */
  method ReturnShift(v0: map<int, Expr>, h0: map<int, Expr>, l0: map<int, Expr>, g0: map<int, Expr>,
                     numRegLoc: nat, numParLoc: nat)
    returns (v: map<int, Expr>, h: map<int, Expr>, l: map<int, Expr>, g: map<int, Expr>)
    ensures v == Override(v0, 0, numParLoc, ShiftGen(V, numRegLoc + 1))
    ensures h == Override(h0, 0, numParLoc, ShiftGen(H, numRegLoc + 1))
    ensures l == Override(l0, 0, numParLoc, ShiftGen(L, numRegLoc + 1))
    ensures g == Override(g0, 0, numParLoc, ShiftGen(G, numRegLoc + 1))
  {
    v, h, l, g := v0, h0, l0, g0;
    var count := 0;
    var i := numRegLoc + 1;
    while i <= numRegLoc + numParLoc
      invariant count == i - (numRegLoc + 1) && 0 <= count <= numParLoc
      invariant v == Override(v0, 0, count, ShiftGen(V, numRegLoc + 1))
      invariant h == Override(h0, 0, count, ShiftGen(H, numRegLoc + 1))
      invariant l == Override(l0, 0, count, ShiftGen(L, numRegLoc + 1))
      invariant g == Override(g0, 0, count, ShiftGen(G, numRegLoc + 1))
    {
      v := v[count := RegVar(V, i)];
      h := h[count := RegVar(H, i)];
      l := l[count := RegVar(L, i)];
      g := g[count := RegVar(G, i)];
      count := count + 1;
      i := i + 1;
    }
  }

  /** The register maps after return vA: `put(numParLoc, var(A))`, then the
      counting loop. */
  method ReturnMaps(u: Updates, a: int, numRegLoc: nat, numParLoc: nat)
    returns (v: map<int, Expr>, h: map<int, Expr>, l: map<int, Expr>, g: map<int, Expr>)
    ensures var r := ReturnUpdates(u, a, numRegLoc, numParLoc); v == r.v && h == r.h && l == r.l && g == r.g
  {
    var x := RegOf(a);
    v, h, l, g := ReturnShift(u.v[numParLoc := x.v], u.h[numParLoc := x.h], u.l[numParLoc := x.l], u.g[numParLoc := x.g],
                              numRegLoc, numParLoc);
  }

  /** The first loop of `liftIfLocal`: for i = 0 .. n-1,
      `regUpG.put(i, or(regUpG.get(i), regUpL.get(i)))` and
      `regUpL.put(i, false)`. */
  method LiftRegistersLoop(g0: map<int, Expr>, l0: map<int, Expr>, n: nat) returns (g: map<int, Expr>, l: map<int, Expr>)
    ensures g == Override(g0, 0, n, JoinGen(g0, l0))
    ensures l == Override(l0, 0, n, ConstGen(False))
  {
    g, l := g0, l0;
    var i := 0;
    while i < n
      invariant 0 <= i <= n
      invariant g == Override(g0, 0, i, JoinGen(g0, l0))
      invariant l == Override(l0, 0, i, ConstGen(False))
    {
      OverrideGet(g0, 0, i, JoinGen(g0, l0), i);
      OverrideGet(l0, 0, i, ConstGen(False), i);
      g := g[i := Or([Get(g, i), Get(l, i)])];
      l := l[i := False];
      i := i + 1;
    }
  }

  /** A loop of `put(i, e)` for i = lo .. hi-1. */
  method FillLoop(m0: map<int, Expr>, lo: int, hi: int, e: Expr) returns (m: map<int, Expr>)
    ensures m == Override(m0, lo, hi, ConstGen(e))
  {
    m := m0;
    var i := lo;
    while i < hi
      invariant lo <= i && (i <= hi || i == lo)
      invariant m == Override(m0, lo, i, ConstGen(e))
    {
      m := m[i := e];
      i := i + 1;
    }
  }

  /** A loop of `put(i, var(kind, i))` for i = lo .. hi-1. */
  method VarLoop(m0: map<int, Expr>, lo: int, hi: int, kind: VarKind) returns (m: map<int, Expr>)
    ensures m == Override(m0, lo, hi, VarGen(kind))
  {
    m := m0;
    var i := lo;
    while i < hi
      invariant lo <= i && (i <= hi || i == lo)
      invariant m == Override(m0, lo, i, VarGen(kind))
    {
      m := m[i := RegVar(kind, i)];
      i := i + 1;
    }
  }

  /** The local-heap reset of `liftIfLocal`: slots 0 .. n-1 become
      (0, false, false, false, true), the five `put`s of a slot together. */
  method ResetHeapLoop(v0: map<int, Expr>, h0: map<int, Expr>, l0: map<int, Expr>, g0: map<int, Expr>,
                       f0: map<int, Expr>, n: nat, w: int)
    returns (v: map<int, Expr>, h: map<int, Expr>, l: map<int, Expr>, g: map<int, Expr>, f: map<int, Expr>)
    ensures v == Override(v0, 0, n, ConstGen(Bv(0, w))) && h == Override(h0, 0, n, ConstGen(False))
    ensures l == Override(l0, 0, n, ConstGen(False)) && g == Override(g0, 0, n, ConstGen(False))
    ensures f == Override(f0, 0, n, ConstGen(True))
  {
    v, h, l, g, f := v0, h0, l0, g0, f0;
    var i := 0;
    while i < n
      invariant 0 <= i <= n
      invariant v == Override(v0, 0, i, ConstGen(Bv(0, w))) && h == Override(h0, 0, i, ConstGen(False))
      invariant l == Override(l0, 0, i, ConstGen(False)) && g == Override(g0, 0, i, ConstGen(False))
      invariant f == Override(f0, 0, i, ConstGen(True))
    {
      v := v[i := Bv(0, w)];
      h := h[i := False];
      l := l[i := False];
      g := g[i := False];
      f := f[i := True];
      i := i + 1;
    }
  }

  /** The loop of `initializeLHC`: slot i of the callee's local heap takes
      its own five variables, for i = 0 .. n-1. */
  method CalleeHeapLoop(n: nat)
    returns (v: map<int, Expr>, h: map<int, Expr>, l: map<int, Expr>, g: map<int, Expr>, f: map<int, Expr>)
    ensures v == Override(map[], 0, n, VarGen(LHCV)) && h == Override(map[], 0, n, VarGen(LHCH))
    ensures l == Override(map[], 0, n, VarGen(LHCL)) && g == Override(map[], 0, n, VarGen(LHCG))
    ensures f == Override(map[], 0, n, VarGen(LHCF))
  {
    v, h, l, g, f := map[], map[], map[], map[], map[];
    var i := 0;
    while i < n
      invariant 0 <= i <= n
      invariant v == Override(map[], 0, i, VarGen(LHCV)) && h == Override(map[], 0, i, VarGen(LHCH))
      invariant l == Override(map[], 0, i, VarGen(LHCL)) && g == Override(map[], 0, i, VarGen(LHCG))
      invariant f == Override(map[], 0, i, VarGen(LHCF))
    {
      v := v[i := RegVar(LHCV, i)];
      h := h[i := RegVar(LHCH, i)];
      l := l[i := RegVar(LHCL, i)];
      g := g[i := RegVar(LHCG, i)];
      f := f[i := RegVar(LHCF, i)];
      i := i + 1;
    }
  }

  /** The first loop of new-instance: for i = 0 .. n-1, G(i) becomes
      `or(G(i), and(L(i), V(i) == e))` and L(i) becomes `and(L(i), V(i) == e)`. */
  method LiftInstanceLoop(g0: map<int, Expr>, l0: map<int, Expr>, v: map<int, Expr>, n: nat, e: Expr)
    returns (g: map<int, Expr>, l: map<int, Expr>)
    ensures g == Override(g0, 0, n, EscapeGen(g0, l0, v, e))
    ensures l == Override(l0, 0, n, SameSiteGen(l0, v, e))
  {
    g, l := g0, l0;
    var i := 0;
    while i < n
      invariant 0 <= i <= n
      invariant g == Override(g0, 0, i, EscapeGen(g0, l0, v, e))
      invariant l == Override(l0, 0, i, SameSiteGen(l0, v, e))
    {
      OverrideGet(g0, 0, i, EscapeGen(g0, l0, v, e), i);
      OverrideGet(l0, 0, i, SameSiteGen(l0, v, e), i);
      g := g[i := Or([Get(g, i), And([Get(l, i), Eq(Get(v, i), e)])])];
      l := l[i := And([Get(l, i), Eq(Get(v, i), e)])];
      i := i + 1;
    }
  }

  /** The object-initialising loop of new-instance, whose body steps its
      index a second time: slots off, off + 2, … below off + size become
      (0, false, false, false, true). */
  method InitObjectLoop(v0: map<int, Expr>, h0: map<int, Expr>, l0: map<int, Expr>, g0: map<int, Expr>,
                        f0: map<int, Expr>, off: int, size: int, w: int)
    returns (v: map<int, Expr>, h: map<int, Expr>, l: map<int, Expr>, g: map<int, Expr>, f: map<int, Expr>)
    ensures v == Strided(v0, off, Trips(size), Bv(0, w)) && h == Strided(h0, off, Trips(size), False)
    ensures l == Strided(l0, off, Trips(size), False) && g == Strided(g0, off, Trips(size), False)
    ensures f == Strided(f0, off, Trips(size), True)
  {
    v, h, l, g, f := v0, h0, l0, g0, f0;
    var i := off;
    var k: nat := 0;
    while i < off + size
      invariant i == off + 2 * k
      invariant k > 0 ==> 2 * k - 2 < size
      invariant v == Strided(v0, off, k, Bv(0, w)) && h == Strided(h0, off, k, False)
      invariant l == Strided(l0, off, k, False) && g == Strided(g0, off, k, False)
      invariant f == Strided(f0, off, k, True)
    {
      v := v[i := Bv(0, w)];
      h := h[i := False];
      l := l[i := False];
      g := g[i := False];
      f := f[i := True];
      i := i + 1;
      i := i + 1;
      k := k + 1;
    }
    assert k == Trips(size);
  }

  // ---------------------------------------------------------------------
  // Lifting objects of the local heap to the global heap

  lemma AppendAssoc(a: seq<Expr>, b: seq<Expr>, c: seq<Expr>)
    ensures a + b + c == a + (b + c)
  {
  }

  lemma AppendAssoc3(a: seq<Expr>, b: seq<Expr>, c: seq<Expr>, d: seq<Expr>)
    ensures a + b + c + d == a + (b + c + d)
  {
  }

  /** The loop of `liftObject` over the fields `keys`: the k-th fact reads
      slot off + k of the local-heap maps. */
  method LiftFields(fsengine: FSEngine, ref: int, ap: int, keys: seq<int>, off: int, h: Expr, lh: HeapMaps, w: int)
    modifies fsengine`mRules
    ensures fsengine.mRules == old(fsengine.mRules) + FieldRules(ref, ap, keys, off, h, lh, w)
  {
    ghost var all := FieldRules(ref, ap, keys, off, h, lh, w);
    var loopi := off;
    var k := 0;
    while k < |keys|
      invariant 0 <= k <= |keys| && loopi == off + k
      invariant fsengine.mRules == old(fsengine.mRules) + all[..k]
    {
      var b := FsHPred(Bv(ref, w), Bv(ap, w), Bv(keys[k], w), Get(lh.v, loopi), Get(lh.h, loopi),
                       And([Get(lh.l, loopi), Get(lh.g, loopi)]));
      fsengine.AddRule(Implies(h, b));
      assert all[..k + 1] == all[..k] + [all[k]];
      loopi := loopi + 1;
      k := k + 1;
    }
    assert all[..k] == all;
  }

  /** `liftObject(h, ap)`: one H fact per field of the site's class, in the
      ascending order of the field hashes; a single wildcard fact when the
      class has no field map. */
  method LiftSite(fsengine: FSEngine, env: Env, w: int, h: Expr, lh: HeapMaps, ap: int)
    requires ap in env.classOf
    modifies fsengine`mRules
    ensures fsengine.mRules == old(fsengine.mRules) + LiftObjectRules(env, w, h, lh, ap)
  {
    var ref := StringHash(env.classOf[ap]);
    var fields := ClassFields(env.classes, env.classOf[ap]);
    if fields.Some? {
      LiftFields(fsengine, ref, ap, SortedKeys(fields.value.Keys), Offset(env, ap), h, lh, w);
    } else {
      fsengine.AddRule(Implies(h, FsHPred(Bv(ref, w), Bv(ap, w), NamedVar(F), Bv(0, w), False, NamedVar(Bf))));
    }
  }

  /** The loop of `liftIfLocal` over the allocation sites. */
  method LiftSites(fsengine: FSEngine, env: Env, w: int, h: Expr, lh: HeapMaps, aps: seq<int>)
    requires forall k :: 0 <= k < |aps| ==> aps[k] in env.classOf
    modifies fsengine`mRules
    ensures fsengine.mRules == old(fsengine.mRules) + LiftAll(env, w, h, lh, aps)
  {
    var k := 0;
    while k < |aps|
      invariant 0 <= k <= |aps|
      invariant fsengine.mRules == old(fsengine.mRules) + LiftAll(env, w, h, lh, aps[..k])
    {
      LiftSite(fsengine, env, w, h, lh, aps[k]);
      LiftAllStep(env, w, h, lh, aps, k);
      AppendAssoc(old(fsengine.mRules), LiftAll(env, w, h, lh, aps[..k]), LiftObjectRules(env, w, h, lh, aps[k]));
      k := k + 1;
    }
    assert aps[..k] == aps;
  }

  /** The inner loop of the last loops of new-instance: site ap lifted once
      per slot off .. off + size - 1 of the new object, under
      `and(lhl.get(i), h)` with lhl the L map of the local heap, which the
      handler has just cleared. */
  method LiftSiteTimes(fsengine: FSEngine, env: Env, w: int, h: Expr, lhl: map<int, Expr>, ap: int, off: int, size: int)
    requires ap in env.classOf && lhl == map[]
    modifies fsengine`mRules
    ensures fsengine.mRules == old(fsengine.mRules) + Repeat(LiftObjectRules(env, w, And([Null, h]), NoHeap, ap), if size > 0 then size else 0)
  {
    ghost var rs := LiftObjectRules(env, w, And([Null, h]), NoHeap, ap);
    var i := off;
    while i < off + size
      invariant off <= i && (i <= off + size || i == off)
      invariant fsengine.mRules == old(fsengine.mRules) + Repeat(rs, i - off)
    {
      var hh := And([Get(lhl, i), h]);
      LiftSite(fsengine, env, w, hh, NoHeap, ap);
      RepeatStep(rs, i - off);
      AppendAssoc(old(fsengine.mRules), Repeat(rs, i - off), rs);
      i := i + 1;
    }
  }

  /** The last loops of new-instance: every site, once per slot of the new
      object. */
  method LiftSitesRepeated(fsengine: FSEngine, env: Env, w: int, h: Expr, lhl: map<int, Expr>, aps: seq<int>, off: int, size: int)
    requires forall k :: 0 <= k < |aps| ==> aps[k] in env.classOf
    requires lhl == map[]
    modifies fsengine`mRules
    ensures fsengine.mRules == old(fsengine.mRules) + LiftAllRepeated(env, w, And([Null, h]), aps, if size > 0 then size else 0)
  {
    var times := if size > 0 then size else 0;
    var k := 0;
    while k < |aps|
      invariant 0 <= k <= |aps|
      invariant fsengine.mRules == old(fsengine.mRules) + LiftAllRepeated(env, w, And([Null, h]), aps[..k], times)
    {
      LiftSitesRepeatedNext(fsengine, env, w, h, lhl, aps, off, size, k, old(fsengine.mRules));
      k := k + 1;
    }
    assert aps[..k] == aps;
  }

  /** One pass of the loop of LiftSitesRepeated: site k, once per slot. */
  method LiftSitesRepeatedNext(fsengine: FSEngine, env: Env, w: int, h: Expr, lhl: map<int, Expr>, aps: seq<int>,
                               off: int, size: int, k: nat, ghost r0: seq<Expr>)
    requires k < |aps| && lhl == map[]
    requires forall j :: 0 <= j < |aps| ==> aps[j] in env.classOf
    requires fsengine.mRules == r0 + LiftAllRepeated(env, w, And([Null, h]), aps[..k], if size > 0 then size else 0)
    modifies fsengine`mRules
    ensures fsengine.mRules == r0 + LiftAllRepeated(env, w, And([Null, h]), aps[..k + 1], if size > 0 then size else 0)
  {
    var times := if size > 0 then size else 0;
    LiftSiteTimes(fsengine, env, w, h, lhl, aps[k], off, size);
    LiftAllRepeatedStep(env, w, And([Null, h]), aps, times, k);
    AppendAssoc(r0, LiftAllRepeated(env, w, And([Null, h]), aps[..k], times),
                Repeat(LiftObjectRules(env, w, And([Null, h]), NoHeap, aps[k]), times));
  }

  /** The maps of the allocation clause of new-instance: registers lifted
      where they pointed locally to the site, A the new object, and the
      object's slots initialised. */
  method AllocatedMaps(env: Env, ctx: Ctx, u: Updates, a: int, inst: int) returns (s: Updates)
    ensures s == NewInstanceState(env, ctx, u, a, inst)
  {
    var w := ctx.width;
    var g, l := LiftInstanceLoop(u.g, u.l, u.v, ctx.numRegLoc + 1, Bv(inst, w));
    s := PutReg(u.(g := g, l := l), a, NewObject(inst, w));
    var lv, lh, ll, lg, lf := InitObjectLoop(s.lh.v, s.lh.h, s.lh.l, s.lh.g, s.lh.f, Offset(env, inst), SizeOf(env, inst), w);
    s := s.(lh := HeapMaps(lv, lh, ll, lg, lf));
  }

  /** The maps `liftIfLocal` builds its state clause from. */
  method LiftedMaps(ctx: Ctx, u: Updates, sru: Option<RegUpdate>) returns (s: Updates)
    ensures s == LiftedState(ctx, u, sru)
  {
    var g, l := LiftRegistersLoop(u.g, u.l, ctx.numRegLoc + 1);
    var lv, lh, ll, lg, lf := ResetHeapLoop(u.lh.v, u.lh.h, u.lh.l, u.lh.g, u.lh.f, ctx.lhSize, ctx.width);
    s := Updates(u.v, u.h, l, g, HeapMaps(lv, lh, ll, lg, lf));
    if sru.Some? {
      s := PutReg(s, sru.value.reg, sru.value.x);
    }
  }

  /** The type whose allocations the handler only propagates. */
  const IntentType: string := "Landroid/content/Intent;"

  // ---------------------------------------------------------------------
  // The handler object

  /** The stores of filled-new-array: for each (register, index) item, the
      element's heap fact under h, then the sites lifted under h and the
      register being a local pointer, as `liftIfLocal` adds them. */
  method StoreElements(fsengine: FSEngine, env: Env, ctx: Ctx, h: Expr, ref: int, inst: int, items: seq<(int, int)>)
    requires PointsKnown(env)
    modifies fsengine`mRules
    ensures fsengine.mRules == old(fsengine.mRules) + StoreAll(env, ctx, h, ref, inst, items)
  {
    var k := 0;
    while k < |items|
      invariant 0 <= k <= |items|
      invariant fsengine.mRules == old(fsengine.mRules) + StoreAll(env, ctx, h, ref, inst, items[..k])
    {
      var reg := items[k].0;
      ghost var r1 := fsengine.mRules;
      fsengine.AddRule(Implies(h, ElementFact(ref, inst, items[k].1, reg, ctx.width)));
      LiftSites(fsengine, env, ctx.width, And([h, RegVar(L, reg)]), NoHeap, env.points);
      StoreAllStep(env, ctx, h, ref, inst, items, k);
      AppendAssoc(r1, [Implies(h, ElementFact(ref, inst, items[k].1, reg, ctx.width))],
                  LiftIfLocalRules(env, ctx, And([h, RegVar(L, reg)])));
      AppendAssoc(old(fsengine.mRules), StoreAll(env, ctx, h, ref, inst, items[..k]), StoreRules(env, ctx, h, ref, inst, items[k]));
      k := k + 1;
    }
    assert items[..k] == items;
  }

  /** One site of the local branch of iget from the maps s: a site without
      a class or field map stops with a null dereference; a site whose class
      has the field gives A the object's slot and clears the slot's maps. */
  method IGetSite(fsengine: FSEngine, env: Env, ctx: Ctx, s: Updates, a: int, b: int, ref: int, aps: seq<int>, k: int)
    returns (s': Updates, stop: bool)
    requires 0 <= k < |aps|
    modifies fsengine`mRules
    ensures var t := IGetLocal(env, ctx, s, a, b, ref, aps[k..]);
      if stop then fsengine.mRules == old(fsengine.mRules) && s' == s && t == Outcome([], s, true)
      else var t' := IGetLocal(env, ctx, s', a, b, ref, aps[k + 1..]);
        old(fsengine.mRules) + t.rules == fsengine.mRules + t'.rules && t.state == t'.state && t.npe == t'.npe
  {
    var ap := aps[k];
    assert aps[k..][0] == ap && aps[k..][1..] == aps[k + 1..];
    s', stop := s, false;
    if ap !in env.classOf {
      stop := true;
      return;
    }
    var fm := ClassFields(env.classes, env.classOf[ap]);
    if fm.None? {
      stop := true;
      return;
    }
    if ref in fm.value {
      var fp := FieldSlot(env, fm.value, ap, ref);
      var s1 := PutReg(s, a, Reg4(Get(s.lh.v, fp), Get(s.lh.h, fp), Get(s.lh.l, fp), Get(s.lh.g, fp)));
      var rule := Implies(LocalGuard(ctx, s, b, ap), RAt(ctx, ctx.nextCode, s1));
      fsengine.AddRule(rule);
      s' := ClearHeapCells(s1);
      AppendAssoc(old(fsengine.mRules), [rule], IGetLocal(env, ctx, s', a, b, ref, aps[k + 1..]).rules);
    }
  }

  /** The local branch of iget, site by site from the maps s0, up to the
      first null dereference. */
  method IGetLocalLoop(fsengine: FSEngine, env: Env, ctx: Ctx, s0: Updates, a: int, b: int, ref: int, aps: seq<int>)
    returns (s: Updates, npe: bool)
    modifies fsengine`mRules
    ensures var o := IGetLocal(env, ctx, s0, a, b, ref, aps);
      fsengine.mRules == old(fsengine.mRules) + o.rules && s == o.state && npe == o.npe
  {
    s, npe := s0, false;
    ghost var o := IGetLocal(env, ctx, s0, a, b, ref, aps);
    assert aps[0..] == aps;
    var k := 0;
    while k < |aps|
      invariant 0 <= k <= |aps|
      invariant var t := IGetLocal(env, ctx, s, a, b, ref, aps[k..]);
        fsengine.mRules + t.rules == old(fsengine.mRules) + o.rules && t.state == o.state && t.npe == o.npe
    {
      var stop;
      s, stop := IGetSite(fsengine, env, ctx, s, a, b, ref, aps, k);
      if stop {
        npe := true;
        return;
      }
      k := k + 1;
    }
  }

  /** One site of the local branch of iput from the maps s: a site without
      a class or field map stops with a null dereference; a site whose class
      has the field stores A in the object's slot and clears the slot's
      maps. */
  method IPutSite(fsengine: FSEngine, env: Env, ctx: Ctx, s: Updates, a: int, b: int, ref: int, aps: seq<int>, k: int)
    returns (s': Updates, stop: bool)
    requires 0 <= k < |aps|
    modifies fsengine`mRules
    ensures var t := IPutLocal(env, ctx, s, a, b, ref, aps[k..]);
      if stop then fsengine.mRules == old(fsengine.mRules) && s' == s && t == Outcome([], s, true)
      else var t' := IPutLocal(env, ctx, s', a, b, ref, aps[k + 1..]);
        old(fsengine.mRules) + t.rules == fsengine.mRules + t'.rules && t.state == t'.state && t.npe == t'.npe
  {
    var ap := aps[k];
    assert aps[k..][0] == ap && aps[k..][1..] == aps[k + 1..];
    s', stop := s, false;
    if ap !in env.classOf {
      stop := true;
      return;
    }
    var fm := ClassFields(env.classes, env.classOf[ap]);
    if fm.None? {
      stop := true;
      return;
    }
    if ref in fm.value {
      var s1 := StoreSlot(s, FieldSlot(env, fm.value, ap, ref), a);
      var rule := Implies(LocalGuard(ctx, s, b, ap), RAt(ctx, ctx.nextCode, s1));
      fsengine.AddRule(rule);
      s' := ClearHeapCells(s1);
      AppendAssoc(old(fsengine.mRules), [rule], IPutLocal(env, ctx, s', a, b, ref, aps[k + 1..]).rules);
    }
  }

  /** The local branch of iput, site by site from the maps s0, up to the
      first null dereference. */
  method IPutLocalLoop(fsengine: FSEngine, env: Env, ctx: Ctx, s0: Updates, a: int, b: int, ref: int, aps: seq<int>)
    returns (s: Updates, npe: bool)
    modifies fsengine`mRules
    ensures var o := IPutLocal(env, ctx, s0, a, b, ref, aps);
      fsengine.mRules == old(fsengine.mRules) + o.rules && s == o.state && npe == o.npe
  {
    s, npe := s0, false;
    ghost var o := IPutLocal(env, ctx, s0, a, b, ref, aps);
    assert aps[0..] == aps;
    var k := 0;
    while k < |aps|
      invariant 0 <= k <= |aps|
      invariant var t := IPutLocal(env, ctx, s, a, b, ref, aps[k..]);
        fsengine.mRules + t.rules == old(fsengine.mRules) + o.rules && t.state == o.state && t.npe == o.npe
    {
      var stop;
      s, stop := IPutSite(fsengine, env, ctx, s, a, b, ref, aps, k);
      if stop {
        npe := true;
        return;
      }
      k := k + 1;
    }
  }

  /** Case k of the switch of `addQuery`: with at least k registers, the
      query about the high label of the k-th argument register. Run for k
      from 5 down to 1, the cases feed the sink queries in order. */
  method AskHigh(fsengine: FSEngine, ghost s0: QueryState, p: Expr, ins: FiveRegs, className: string,
                 methodName: string, pc: string, sinkName: string, verbose: bool, k: int)
    requires 1 <= k <= 5
    requires fsengine.QueryView() == Feed(s0, SinkQueries(p, ins, className, methodName, pc, sinkName, verbose)
                                               [..if ArgCount(ins) > k then ArgCount(ins) - k else 0])
    modifies fsengine`mQueries, fsengine`mCurrentQuery
    ensures fsengine.QueryView() == Feed(s0, SinkQueries(p, ins, className, methodName, pc, sinkName, verbose)
                                              [..if ArgCount(ins) >= k then ArgCount(ins) - k + 1 else 0])
  {
    var n := ArgCount(ins);
    if n >= k {
      ghost var qs := SinkQueries(p, ins, className, methodName, pc, sinkName, verbose);
      fsengine.AddQuery(LeakQuery(p, FiveArg(ins, k - 1), H, className, methodName, pc, sinkName, verbose));
      FeedPrefix(s0, qs, n - k);
    }
  }

  /** `addQueryRange(z3engine, p, …)`: for each register from start up, the
      legacy engine asks whether its L label holds at p. */
  method AddQueryRange(z3engine: Z3Engine, p: Expr, ins: RangeRegs, className: string, methodName: string,
                       pc: string, sinkName: string, verbose: bool)
    modifies z3engine`mQueries, z3engine`mCurrentQuery
    ensures z3engine.QueryView()
      == Feed(old(z3engine.QueryView()), RangeQueries(p, ins, className, methodName, pc, sinkName, verbose))
  {
    ghost var s0 := z3engine.QueryView();
    ghost var qs := RangeQueries(p, ins, className, methodName, pc, sinkName, verbose);
    ghost var done: seq<Query> := [];
    var endRegister := ins.start + ins.count - 1;
    var reg := ins.start;
    while reg <= endRegister
      invariant ins.start <= reg <= ins.start + |qs|
      invariant done == qs[..reg - ins.start]
      invariant z3engine.QueryView() == Feed(s0, done)
    {
      RangeQueryAt(p, ins, className, methodName, pc, sinkName, verbose, reg);
      FeedSnoc(s0, done, LeakQuery(p, reg, L, className, methodName, pc, sinkName, verbose));
      z3engine.AddQuery(LeakQuery(p, reg, L, className, methodName, pc, sinkName, verbose));
      done := done + [LeakQuery(p, reg, L, className, methodName, pc, sinkName, verbose)];
      assert done == qs[..reg - ins.start + 1];
      reg := reg + 1;
    }
    assert done == qs;
  }

  /** The loop building `regResLHF` after a call: slot i is
      `or(regUpLHF.get(i), regUpLHCF.get(i))`, nulls included, for
      i = 0 .. n-1. */
  method JoinLoop(a: map<int, Expr>, b: map<int, Expr>, n: nat) returns (m: map<int, Expr>)
    ensures m == Override(map[], 0, n, JoinGen(a, b))
  {
    m := map[];
    var i := 0;
    while i < n
      invariant 0 <= i <= n
      invariant m == Override(map[], 0, i, JoinGen(a, b))
    {
      m := m[i := Or([Get(a, i), Get(b, i)])];
      i := i + 1;
    }
  }

  class FSInstructionAnalysis {
    /** What the handlers read from the analysis (its classes, allocation
        sites and layout) and from the instruction's place. */
    const env: Env
    const ctx: Ctx
    const fsengine: FSEngine
    const z3engine: Z3Engine

    var regUpV: map<int, Expr>
    var regUpH: map<int, Expr>
    var regUpL: map<int, Expr>
    var regUpG: map<int, Expr>
    var regUpLHV: map<int, Expr>
    var regUpLHH: map<int, Expr>
    var regUpLHL: map<int, Expr>
    var regUpLHG: map<int, Expr>
    var regUpLHF: map<int, Expr>

    var regUpLHCV: map<int, Expr>
    var regUpLHCH: map<int, Expr>
    var regUpLHCL: map<int, Expr>
    var regUpLHCG: map<int, Expr>
    var regUpLHCF: map<int, Expr>

    /** The nine update maps the predicate builders read. */
    function View(): Updates
      reads this`regUpV, this`regUpH, this`regUpL, this`regUpG
      reads this`regUpLHV, this`regUpLHH, this`regUpLHL, this`regUpLHG, this`regUpLHF
    {
      Updates(regUpV, regUpH, regUpL, regUpG, HeapMaps(regUpLHV, regUpLHH, regUpLHL, regUpLHG, regUpLHF))
    }

    /** The callee's local-heap maps. */
    function Callee(): HeapMaps
      reads this`regUpLHCV, this`regUpLHCH, this`regUpLHCL, this`regUpLHCG, this`regUpLHCF
    {
      HeapMaps(regUpLHCV, regUpLHCH, regUpLHCL, regUpLHCG, regUpLHCF)
    }

    /** The four register maps are empty. */
    predicate Cleared()
      reads this`regUpV, this`regUpH, this`regUpL, this`regUpG
    {
      regUpV == map[] && regUpH == map[] && regUpL == map[] && regUpG == map[]
    }

    /** The callee's local-heap maps hold the fresh callee-heap variables. */
    predicate CalleeFresh()
      reads this`regUpLHCV, this`regUpLHCH, this`regUpLHCL, this`regUpLHCG, this`regUpLHCF
    {
      Callee() == CalleeHeap(ctx.lhSize)
    }

    /** Every map starts empty. */
    constructor (env: Env, ctx: Ctx, fsengine: FSEngine, z3engine: Z3Engine)
      ensures this.env == env && this.ctx == ctx && this.fsengine == fsengine && this.z3engine == z3engine
      ensures View() == NoUpdates && Callee() == NoHeap
    {
      this.env := env;
      this.ctx := ctx;
      this.fsengine := fsengine;
      this.z3engine := z3engine;
      regUpV, regUpH, regUpL, regUpG := map[], map[], map[], map[];
      regUpLHV, regUpLHH, regUpLHL, regUpLHG, regUpLHF := map[], map[], map[], map[], map[];
      regUpLHCV, regUpLHCH, regUpLHCL, regUpLHCG, regUpLHCF := map[], map[], map[], map[], map[];
    }

    /** The four `put`s of one register. */
    method PutRegister(r: int, x: Reg4)
      modifies this`regUpV, this`regUpH, this`regUpL, this`regUpG
      ensures View() == PutReg(old(View()), r, x)
    {
      regUpV := regUpV[r := x.v];
      regUpH := regUpH[r := x.h];
      regUpL := regUpL[r := x.l];
      regUpG := regUpG[r := x.g];
    }

    /** `regUpV.clear(); regUpH.clear(); regUpL.clear(); regUpG.clear();` */
    method ClearRegisters()
      modifies this`regUpV, this`regUpH, this`regUpL, this`regUpG
      ensures View() == ClearRegs(old(View()))
    {
      regUpV, regUpH, regUpL, regUpG := map[], map[], map[], map[];
    }

    /** All nine maps cleared. */
    method ClearAll()
      modifies this`regUpV, this`regUpH, this`regUpL, this`regUpG
      modifies this`regUpLHV, this`regUpLHH, this`regUpLHL, this`regUpLHG, this`regUpLHF
      ensures View() == NoUpdates
    {
      regUpV, regUpH, regUpL, regUpG := map[], map[], map[], map[];
      regUpLHV, regUpLHH, regUpLHL, regUpLHG, regUpLHF := map[], map[], map[], map[], map[];
    }

    // -------------------------------------------------------------------
    // Data movement

    /** nop, monitor-enter/exit, throw and the conversions (`propagate`). */
    method Propagate()
      modifies fsengine`mRules
      ensures fsengine.mRules == old(fsengine.mRules) + [PropagateRule(ctx, View())]
    {
      var h := RAt(ctx, ctx.codeAddress, View());
      var b := RAt(ctx, ctx.nextCode, View());
      fsengine.AddRule(Implies(h, b));
    }

    /** move vA, vB. */
    method Move(a: int, b: int)
      modifies this`regUpV, this`regUpH, this`regUpL, this`regUpG, fsengine`mRules
      ensures fsengine.mRules == old(fsengine.mRules) + [MoveRule(ctx, old(View()), a, b)]
      ensures View() == PutReg(old(View()), a, RegOf(b))
    {
      var h := RAt(ctx, ctx.codeAddress, View());
      PutRegister(a, RegOf(b));
      var b' := RAt(ctx, ctx.nextCode, View());
      fsengine.AddRule(Implies(h, b'));
    }

    /** move-result vA: a move from the result slot numRegLoc. */
    method MoveResult(a: int)
      modifies this`regUpV, this`regUpH, this`regUpL, this`regUpG, fsengine`mRules
      ensures fsengine.mRules == old(fsengine.mRules) + [MoveRule(ctx, old(View()), a, ctx.numRegLoc)]
      ensures View() == PutReg(old(View()), a, RegOf(ctx.numRegLoc))
    {
      var h := RAt(ctx, ctx.codeAddress, View());
      PutRegister(a, RegOf(ctx.numRegLoc));
      var b := RAt(ctx, ctx.nextCode, View());
      fsengine.AddRule(Implies(h, b));
    }

    /** return vA: the summary of the method. */
    method Return(a: int)
      modifies this`regUpV, this`regUpH, this`regUpL, this`regUpG, fsengine`mRules
      ensures fsengine.mRules == old(fsengine.mRules) + [ReturnRule(ctx, old(View()), a)]
      ensures View() == ReturnUpdates(old(View()), a, ctx.numRegLoc, ctx.numParLoc)
    {
      var h := RAt(ctx, ctx.codeAddress, View());
      regUpV, regUpH, regUpL, regUpG := ReturnMaps(View(), a, ctx.numRegLoc, ctx.numParLoc);
      var b := FsResPred(ctx.c, ctx.m, View(), ctx.numParLoc, ctx.lhSize);
      fsengine.AddRule(Implies(h, b));
    }

    /** const vA, #lit; const-string and const-class pass the hash of the
        reference string as the literal. */
    method Const(a: int, lit: int)
      modifies this`regUpV, this`regUpH, this`regUpL, this`regUpG, fsengine`mRules
      ensures fsengine.mRules == old(fsengine.mRules) + [ConstRule(ctx, old(View()), a, lit)]
      ensures View() == PutReg(old(View()), a, Plain(Bv(lit, ctx.width)))
    {
      var h := RAt(ctx, ctx.codeAddress, View());
      PutRegister(a, Plain(Bv(lit, ctx.width)));
      var b := RAt(ctx, ctx.nextCode, View());
      fsengine.AddRule(Implies(h, b));
    }

    /** check-cast vA. */
    method CheckCast(a: int)
      modifies fsengine`mRules
      ensures fsengine.mRules == old(fsengine.mRules) + CheckCastRules(ctx, View(), a)
    {
      var h := And([RAt(ctx, ctx.codeAddress, View()), Eq(RegVar(G, a), True), BvCompare(Ugt, RegVar(V, a), Bv(0, ctx.width))]);
      var b := RAt(ctx, ctx.nextCode, View());
      fsengine.AddRule(Implies(h, b));
      h := And([RAt(ctx, ctx.codeAddress, View()), Eq(RegVar(L, a), True), BvCompare(Ugt, RegVar(V, a), Bv(0, ctx.width))]);
      fsengine.AddRule(Implies(h, b));
    }

    /** instance-of vA. */
    method InstanceOf(a: int)
      modifies this`regUpV, this`regUpH, this`regUpL, this`regUpG, fsengine`mRules
      ensures fsengine.mRules == old(fsengine.mRules) + InstanceOfRules(ctx, old(View()), a)
      ensures View() == InstanceOfState(ctx, old(View()), a)
    {
      var h := RAt(ctx, ctx.codeAddress, View());
      PutRegister(a, Plain(Bv(0, ctx.width)));
      var b := RAt(ctx, ctx.nextCode, View());
      fsengine.AddRule(Implies(h, b));
      ClearRegisters();
      h := RAt(ctx, ctx.codeAddress, View());
      PutRegister(a, Plain(Bv(1, ctx.width)));
      b := RAt(ctx, ctx.nextCode, View());
      fsengine.AddRule(Implies(h, b));
    }

    /** array-length vA, vB. */
    method ArrayLength(a: int)
      modifies this`regUpV, this`regUpH, this`regUpL, this`regUpG, fsengine`mRules
      ensures fsengine.mRules == old(fsengine.mRules) + [ArrayLengthRule(ctx, old(View()), a)]
      ensures View() == PutReg(old(View()), a, Reg4(NamedVar(F), NamedVar(Lf), False, False))
    {
      var h := RAt(ctx, ctx.codeAddress, View());
      PutRegister(a, Reg4(NamedVar(F), NamedVar(Lf), False, False));
      var b := RAt(ctx, ctx.nextCode, View());
      fsengine.AddRule(Implies(h, b));
    }

    // -------------------------------------------------------------------
    // Arithmetic

    /** `unaryOp(bv)`: unary, literal and rsub forms. */
    method UnaryOp(a: int, b: int, bv: Expr)
      modifies this`regUpV, this`regUpH, fsengine`mRules
      ensures fsengine.mRules == old(fsengine.mRules) + [UnaryRule(ctx, old(View()), a, b, bv)]
      ensures View() == PutVH(old(View()), a, bv, RegVar(H, b))
    {
      var h := RAt(ctx, ctx.codeAddress, View());
      regUpV := regUpV[a := bv];
      regUpH := regUpH[a := RegVar(H, b)];
      var b' := RAt(ctx, ctx.nextCode, View());
      fsengine.AddRule(Implies(h, b'));
    }

    /** `binaryOp(bv)`: the /2addr forms. */
    method BinaryOp(a: int, b: int, bv: Expr)
      modifies this`regUpV, this`regUpH, fsengine`mRules
      ensures fsengine.mRules == old(fsengine.mRules) + [BinaryRule(ctx, old(View()), a, b, bv)]
      ensures View() == PutVH(old(View()), a, bv, Or([RegVar(H, a), RegVar(H, b)]))
    {
      var h := RAt(ctx, ctx.codeAddress, View());
      regUpV := regUpV[a := bv];
      regUpH := regUpH[a := Or([RegVar(H, a), RegVar(H, b)])];
      var b' := RAt(ctx, ctx.nextCode, View());
      fsengine.AddRule(Implies(h, b'));
    }

    /** `binaryOpC(bv)`: the three-register forms. */
    method BinaryOpC(a: int, b: int, c: int, bv: Expr)
      modifies this`regUpV, this`regUpH, fsengine`mRules
      ensures fsengine.mRules == old(fsengine.mRules) + [BinaryCRule(ctx, old(View()), a, b, c, bv)]
      ensures View() == PutVH(old(View()), a, bv, Or([RegVar(H, b), RegVar(H, c)]))
    {
      var h := RAt(ctx, ctx.codeAddress, View());
      regUpV := regUpV[a := bv];
      regUpH := regUpH[a := Or([RegVar(H, b), RegVar(H, c)])];
      var b' := RAt(ctx, ctx.nextCode, View());
      fsengine.AddRule(Implies(h, b'));
    }

    /** cmp-long and the float compares: the value 0, 1 or -1 with the join
        of the operands' labels. */
    method CmpLong(a: int, b: int, c: int)
      modifies this`regUpV, this`regUpH, fsengine`mRules
      ensures fsengine.mRules == old(fsengine.mRules) + [BinaryCRule(ctx, old(View()), a, b, c, CmpValue(b, c, ctx.width))]
      ensures View() == PutVH(old(View()), a, CmpValue(b, c, ctx.width), Or([RegVar(H, b), RegVar(H, c)]))
    {
      var h := RAt(ctx, ctx.codeAddress, View());
      regUpV := regUpV[a := Ite(Eq(RegVar(V, b), RegVar(V, c)), Bv(0, ctx.width),
                                Ite(BvCompare(Ugt, RegVar(V, b), RegVar(V, c)), Bv(1, ctx.width), Bv(-1, ctx.width)))];
      regUpH := regUpH[a := Or([RegVar(H, b), RegVar(H, c)])];
      var b' := RAt(ctx, ctx.nextCode, View());
      fsengine.AddRule(Implies(h, b'));
    }

    // -------------------------------------------------------------------
    // Branches

    /** goto +offset. */
    method Goto(offset: int)
      modifies fsengine`mRules
      ensures fsengine.mRules == old(fsengine.mRules) + [GotoRule(ctx, View(), offset)]
    {
      var jump := ctx.codeAddress + offset;
      var h := RAt(ctx, ctx.codeAddress, View());
      var b := RAt(ctx, jump, View());
      fsengine.AddRule(Implies(h, b));
    }

    /** `cmpInstruction(g)`: jump iff g holds. */
    method CmpInstruction(g: Expr, offset: int)
      modifies fsengine`mRules
      ensures fsengine.mRules == old(fsengine.mRules) + CmpInstructionRules(ctx, View(), g, offset)
    {
      var jump := ctx.codeAddress + offset;
      var h := And([RAt(ctx, ctx.codeAddress, View()), g]);
      var b := RAt(ctx, jump, View());
      fsengine.AddRule(Implies(h, b));
      h := And([RAt(ctx, ctx.codeAddress, View()), Not(g)]);
      b := RAt(ctx, ctx.nextCode, View());
      fsengine.AddRule(Implies(h, b));
    }

    /** if-kind vA, vB, +offset. */
    method IfTest(k: IfKind, a: int, b: int, offset: int)
      modifies fsengine`mRules
      ensures fsengine.mRules == old(fsengine.mRules) + CmpInstructionRules(ctx, View(), IfGuard(k, RegVar(V, a), RegVar(V, b)), offset)
    {
      CmpInstruction(IfGuard(k, RegVar(V, a), RegVar(V, b)), offset);
    }

    /** if-kindz vA, +offset. */
    method IfTestZero(k: IfKind, a: int, offset: int)
      modifies fsengine`mRules
      ensures fsengine.mRules == old(fsengine.mRules) + CmpInstructionRules(ctx, View(), IfGuard(k, RegVar(V, a), Zero(ctx)), offset)
    {
      CmpInstruction(IfGuard(k, RegVar(V, a), Bv(0, ctx.width)), offset);
    }

    /** packed-switch and sparse-switch vA: `table` is the (key, target)
        list of the payload found for the instruction, if any. */
    method Switch(a: int, table: Option<seq<(int, int)>>)
      modifies fsengine`mRules
      ensures fsengine.mRules == old(fsengine.mRules) + SwitchRules(ctx, View(), a, table)
    {
      var negationString := False;
      if table.Some? {
        var cases := table.value;
        ghost var all := CaseRules(ctx, View(), a, cases);
        negationString := True;
        var t := 0;
        while t < |cases|
          invariant 0 <= t <= |cases|
          invariant fsengine.mRules == old(fsengine.mRules) + all[..t]
          invariant negationString == NegationString(ctx, a, cases[..t])
        {
          var h := And([RAt(ctx, ctx.codeAddress, View()), Eq(RegVar(V, a), Bv(cases[t].0, ctx.width))]);
          var b := RAt(ctx, cases[t].1, View());
          fsengine.AddRule(Implies(h, b));
          assert all[..t + 1] == all[..t] + [all[t]];
          assert cases[..t + 1][..t] == cases[..t];
          negationString := And([negationString, Eq(RegVar(V, a), Bv(cases[t].0, ctx.width))]);
          t := t + 1;
        }
        assert all[..t] == all;
        assert cases[..t] == cases;
      }
      var h := And([RAt(ctx, ctx.codeAddress, View()), Not(negationString)]);
      var b := RAt(ctx, ctx.nextCode, View());
      fsengine.AddRule(Implies(h, b));
    }

    // -------------------------------------------------------------------
    // The local heap

    /** `liftObject(h, ap)` on the current local-heap maps. */
    method LiftObject(h: Expr, ap: int)
      requires ap in env.classOf
      modifies fsengine`mRules
      ensures fsengine.mRules == old(fsengine.mRules) + LiftObjectRules(env, ctx.width, h, View().lh, ap)
    {
      LiftSite(fsengine, env, ctx.width, h, View().lh, ap);
    }

    /** `liftIfLocal(h, u)`: registers 0..numRegLoc are lifted, the local
        heap reset and the single update applied; the state clause built
        from these maps is returned, not added. All nine maps are then
        cleared and every site is lifted under h. */
    method LiftIfLocal(h: Expr, sru: Option<RegUpdate>) returns (unused: Expr)
      requires PointsKnown(env)
      modifies this`regUpV, this`regUpH, this`regUpL, this`regUpG
      modifies this`regUpLHV, this`regUpLHH, this`regUpLHL, this`regUpLHG, this`regUpLHF, fsengine`mRules
      ensures unused == LiftIfLocalClause(ctx, old(View()), h, sru)
      ensures fsengine.mRules == old(fsengine.mRules) + LiftIfLocalRules(env, ctx, h)
      ensures View() == NoUpdates
    {
      var s := LiftedMaps(ctx, View(), sru);
      unused := Implies(h, RAt(ctx, ctx.nextCode, s));
      ClearAll();
      LiftSites(fsengine, env, ctx.width, h, NoHeap, env.points);
    }

    /** `liftLi()`: after a call, every register becomes global when it was
        global, or local and pointing to a site whose callee-heap F flag is
        set. */
    method LiftLi()
      modifies this`regUpG
      ensures regUpG == Override(old(regUpG), 0, Regs(ctx), LiftLiGen(env, ctx.width))
    {
      var i := 0;
      while i < Regs(ctx)
        invariant 0 <= i <= Regs(ctx)
        invariant regUpG == Override(old(regUpG), 0, i, LiftLiGen(env, ctx.width))
      {
        var h := False;
        var j := 0;
        while j < env.entries
          invariant 0 <= j && (j <= env.entries || j == 0)
          invariant h == SiteTest(env, i, ctx.width, j)
        {
          var instanceNum := SiteOfEntry(env, j);
          h := Or([h, And([RegVar(LHCF, Offset(env, instanceNum)), Eq(RegVar(V, i), Bv(instanceNum, ctx.width))])]);
          j := j + 1;
        }
        regUpG := regUpG[i := Or([RegVar(G, i), And([RegVar(L, i), h])])];
        i := i + 1;
      }
    }

    /** `initializeLHC()`: slot i of the callee's local heap maps holds its
        own variables, for every slot of the local heap. */
    method InitializeLHC()
      modifies this`regUpLHCV, this`regUpLHCH, this`regUpLHCL, this`regUpLHCG, this`regUpLHCF
      ensures Callee() == CalleeHeap(ctx.lhSize)
    {
      regUpLHCV, regUpLHCH, regUpLHCL, regUpLHCG, regUpLHCF := CalleeHeapLoop(ctx.lhSize);
    }

    // -------------------------------------------------------------------
    // Allocation

    /** new-instance vA, type: `ref` is the hash of the type name and `inst`
        the allocation site. An Intent is only propagated. */
    method NewInstance(a: int, ref: int, inst: int)
      requires ref != StringHash(IntentType) ==> inst in env.classOf && PointsKnown(env)
      modifies this`regUpV, this`regUpH, this`regUpL, this`regUpG
      modifies this`regUpLHV, this`regUpLHH, this`regUpLHL, this`regUpLHG, this`regUpLHF, fsengine`mRules
      ensures ref == StringHash(IntentType) ==>
        fsengine.mRules == old(fsengine.mRules) + [PropagateRule(ctx, old(View()))] && View() == old(View())
      ensures ref != StringHash(IntentType) ==>
        fsengine.mRules == old(fsengine.mRules) + NewInstanceRules(env, ctx, old(View()), a, inst) && View() == NoUpdates
    {
      if ref == StringHash(IntentType) {
        Propagate();
        return;
      }
      ghost var u0, r0 := View(), fsengine.mRules;
      // the allocation clause
      var h := RAt(ctx, ctx.codeAddress, View());
      var s := AllocatedMaps(env, ctx, View(), a, inst);
      fsengine.AddRule(Implies(h, RAt(ctx, ctx.nextCode, s)));
      ClearAll();
      // the site's previous object goes to the global heap
      ghost var r1 := fsengine.mRules;
      h := RAt(ctx, ctx.codeAddress, View());
      LiftObject(h, inst);
      ClearAll();
      // the state of the whole-heap lifting; the clauses built from it are not added
      var discarded := LiftedMaps(ctx, View(), Some(RegUpdate(a, NewObject(inst, ctx.width))));
      ClearAll();
      // every site, once per slot of the new object
      ghost var r2 := fsengine.mRules;
      h := RAt(ctx, ctx.codeAddress, View());
      LiftSitesRepeated(fsengine, env, ctx.width, h, regUpLHL, env.points, Offset(env, inst), SizeOf(env, inst));
      ghost var empty := RAt(ctx, ctx.codeAddress, NoUpdates);
      AppendAssoc3(r0, [Step(ctx, u0, NewInstanceState(env, ctx, u0, a, inst))],
                   LiftObjectRules(env, ctx.width, empty, NoHeap, inst),
                   LiftAllRepeated(env, ctx.width, And([Null, empty]), env.points, if SizeOf(env, inst) > 0 then SizeOf(env, inst) else 0));
    }

    /** new-array vA, vB, type: A points to the new array, marked global, and
        the register maps are cleared before the array's cells are put in the
        heap with value 0. */
    method NewArray(a: int, b: int, ref: int, inst: int)
      modifies this`regUpV, this`regUpH, this`regUpL, this`regUpG, fsengine`mRules
      ensures fsengine.mRules == old(fsengine.mRules) + NewArrayRules(env, ctx, old(View()), a, b, ref, inst)
      ensures View() == ClearRegs(old(View()))
    {
      var w := ctx.width;
      var h := RAt(ctx, ctx.codeAddress, View());
      PutRegister(a, Reg4(Bv(inst, w), False, False, True));
      var nb := RAt(ctx, ctx.nextCode, View());
      fsengine.AddRule(Implies(h, nb));
      ClearRegisters();
      var cell;
      if env.optionArrays {
        h := And([RAt(ctx, ctx.codeAddress, View()), BvCompare(Uge, Bv(0, w), NamedVar(F)),
                  BvCompare(Ult, NamedVar(F), RegVar(V, b))]);
        cell := FsHPred(Bv(ref, w), Bv(inst, w), NamedVar(F), Bv(0, w), False, False);
      } else {
        h := RAt(ctx, ctx.codeAddress, View());
        cell := FsHPred(Bv(ref, w), Bv(inst, w), Bv(0, w), Bv(0, w), False, False);
      }
      fsengine.AddRule(Implies(h, cell));
    }

    /** filled-new-array {vC, ..., vG}, type: the result slot points to the
        new array; then, under the guard built once from the cleared register
        maps, each register from the last down to C is stored and lifted if
        it is a local pointer. The switch on the register count falls through
        its cases, which StoreElements runs in the same order; the maps that
        each `liftIfLocal` clears are cleared once at the end. */
    method FilledNewArray(ref: int, inst: int, regs: seq<int>)
      requires PointsKnown(env)
      modifies this`regUpV, this`regUpH, this`regUpL, this`regUpG
      modifies this`regUpLHV, this`regUpLHH, this`regUpLHL, this`regUpLHG, this`regUpLHF, fsengine`mRules
      ensures fsengine.mRules == old(fsengine.mRules) + FilledNewArrayRules(env, ctx, old(View()), ref, inst, regs)
      ensures View() == if |regs| == 0 then ClearRegs(old(View())) else NoUpdates
    {
      ghost var u0, r0 := View(), fsengine.mRules;
      var res := ArrayResult(ctx, inst);
      var h := RAt(ctx, ctx.codeAddress, View());
      PutRegister(res.reg, res.x);
      var b := RAt(ctx, ctx.nextCode, View());
      fsengine.AddRule(Implies(h, b));
      ClearRegisters();
      h := RAt(ctx, ctx.codeAddress, View());
      var items := FilledItems(regs, env.optionArrays);
      StoreElements(fsengine, env, ctx, h, ref, inst, items);
      if |items| > 0 {
        ClearAll();
      }
      AppendAssoc(r0, [Step(ctx, u0, PutReg(u0, res.reg, res.x))], StoreAll(env, ctx, h, ref, inst, items));
    }

    /** filled-new-array/range {vStart .. vStart+count-1}, type: as
        filled-new-array, but the loop rebuilds the guard from the current
        maps before each register; the first `liftIfLocal` clears them, so
        the first register is stored under the cleared register maps and the
        others under empty maps. */
    method FilledNewArrayRange(ref: int, inst: int, start: int, count: nat)
      requires PointsKnown(env)
      modifies this`regUpV, this`regUpH, this`regUpL, this`regUpG
      modifies this`regUpLHV, this`regUpLHH, this`regUpLHL, this`regUpLHG, this`regUpLHF, fsengine`mRules
      ensures fsengine.mRules == old(fsengine.mRules) + FilledRangeRules(env, ctx, old(View()), ref, inst, start, count)
      ensures View() == if count == 0 then ClearRegs(old(View())) else NoUpdates
    {
      ghost var u0, r0 := View(), fsengine.mRules;
      var res := ArrayResult(ctx, inst);
      var h := RAt(ctx, ctx.codeAddress, View());
      PutRegister(res.reg, res.x);
      var b := RAt(ctx, ctx.nextCode, View());
      fsengine.AddRule(Implies(h, b));
      ClearRegisters();
      var items := RangeItems(start, count, env.optionArrays);
      if count > 0 {
        ghost var r1 := fsengine.mRules;
        h := RAt(ctx, ctx.codeAddress, View());
        StoreElements(fsengine, env, ctx, h, ref, inst, items[..1]);
        ClearAll();
        ghost var r2 := fsengine.mRules;
        var h' := RAt(ctx, ctx.codeAddress, View());
        StoreElements(fsengine, env, ctx, h', ref, inst, items[1..]);
        AppendAssoc(r1, StoreAll(env, ctx, h, ref, inst, items[..1]), StoreAll(env, ctx, h', ref, inst, items[1..]));
      }
      AppendAssoc(r0, [Step(ctx, u0, PutReg(u0, res.reg, res.x))],
                  FilledRangeRules(env, ctx, u0, ref, inst, start, count)[1..]);
    }

    // -------------------------------------------------------------------
    // Arrays and fields

    /** The nine maps set to s. */
    method SetMaps(s: Updates)
      modifies this`regUpV, this`regUpH, this`regUpL, this`regUpG
      modifies this`regUpLHV, this`regUpLHH, this`regUpLHL, this`regUpLHG, this`regUpLHF
      ensures View() == s
    {
      regUpV, regUpH, regUpL, regUpG := s.v, s.h, s.l, s.g;
      regUpLHV, regUpLHH, regUpLHL, regUpLHG, regUpLHF := s.lh.v, s.lh.h, s.lh.l, s.lh.g, s.lh.f;
    }

    /** aget vA, vB, vC: A takes any value the heap holds for the array in B,
        at the index in C with the arrays option and at cell 0 without. */
    method AGet(a: int, b: int, c: int)
      modifies this`regUpV, this`regUpH, this`regUpL, this`regUpG, fsengine`mRules
      ensures fsengine.mRules == old(fsengine.mRules) + [AGetRule(env, ctx, old(View()), a, b, c)]
      ensures View() == PutReg(old(View()), a, HeapValue())
    {
      var index := if env.optionArrays then RegVar(V, c) else Bv(0, ctx.width);
      var h := And([FsHPred(NamedVar(Cn), RegVar(V, b), index, NamedVar(Val), NamedVar(Lval), NamedVar(Bval)),
                    RAt(ctx, ctx.codeAddress, View())]);
      PutRegister(a, Reg4(NamedVar(Val), NamedVar(Lval), False, NamedVar(Bval)));
      var b' := RAt(ctx, ctx.nextCode, View());
      fsengine.AddRule(Implies(h, b'));
    }

    /** aput vA, vB, vC: B is tainted with A's high label, the heap clause
        goes to the legacy engine, and the local heap is lifted when A is a
        local pointer. */
    method APut(a: int, b: int, c: int)
      requires PointsKnown(env)
      modifies this`regUpV, this`regUpH, this`regUpL, this`regUpG
      modifies this`regUpLHV, this`regUpLHH, this`regUpLHL, this`regUpLHG, this`regUpLHF
      modifies fsengine`mRules, z3engine`mRules
      ensures fsengine.mRules == old(fsengine.mRules) + APutRules(env, ctx, old(View()), a, b)
      ensures z3engine.mRules == old(z3engine.mRules) + [APutHeapRule(env, ctx, old(View()), a, b, c)]
      ensures View() == NoUpdates
    {
      ghost var u0, r0 := View(), fsengine.mRules;
      var w := ctx.width;
      var h := RAt(ctx, ctx.codeAddress, View());
      regUpH := regUpH[b := Or([RegVar(H, b), RegVar(H, a)])];
      var b' := RAt(ctx, ctx.nextCode, View());
      fsengine.AddRule(Implies(h, b'));
      assert fsengine.mRules == r0 + [TaintRule(ctx, u0, a, b)];
      regUpH := map[];
      assert View() == u0.(h := map[]);
      h := And([RAt(ctx, ctx.codeAddress, View()),
                FsHPred(NamedVar(Cn), RegVar(V, b), Bv(0, w), Bv(0, w), NamedVar(Lf), NamedVar(Bf))]);
      var cell := FsHPred(NamedVar(Cn), RegVar(V, b), if env.optionArrays then RegVar(V, c) else Bv(0, w),
                          RegVar(V, a), RegVar(H, a), Or([RegVar(L, a), RegVar(G, a)]));
      z3engine.AddRule(Implies(h, cell));
      h := And([Eq(RegVar(L, a), True), RAt(ctx, ctx.codeAddress, View())]);
      ghost var r1 := fsengine.mRules;
      var unused := LiftIfLocal(h, None);
      AppendAssoc(r0, [TaintRule(ctx, u0, a, b)], LiftIfLocalRules(env, ctx, h));
    }

    /** iget vA, vB, field: A takes any value of the field in the global
        heap; then, from the cleared register maps, the local clause of each
        site whose class has the field. `npe` reports the null dereference
        of a site without a class or field map, which ends the handler. */
    method IGet(a: int, b: int, ref: int) returns (npe: bool)
      modifies this`regUpV, this`regUpH, this`regUpL, this`regUpG
      modifies this`regUpLHV, this`regUpLHH, this`regUpLHL, this`regUpLHG, this`regUpLHF, fsengine`mRules
      ensures var o := IGetRules(env, ctx, old(View()), a, b, ref);
        fsengine.mRules == old(fsengine.mRules) + o.rules && View() == o.state && npe == o.npe
    {
      ghost var u0, r0 := View(), fsengine.mRules;
      var h := And([FsHPred(NamedVar(Cn), RegVar(V, b), Bv(ref, ctx.width), NamedVar(Val), NamedVar(Lval), NamedVar(Bval)),
                    RAt(ctx, ctx.codeAddress, View())]);
      PutRegister(a, Reg4(NamedVar(Val), NamedVar(Lval), False, NamedVar(Bval)));
      var b' := RAt(ctx, ctx.nextCode, View());
      fsengine.AddRule(Implies(h, b'));
      ClearRegisters();
      var s;
      s, npe := IGetLocalLoop(fsengine, env, ctx, View(), a, b, ref, env.points);
      SetMaps(s);
      AppendAssoc(r0, [IGetGlobalRule(ctx, u0, a, b, ref)], IGetLocal(env, ctx, ClearRegs(u0), a, b, ref, env.points).rules);
    }

    /** iput vA, vB, field: B is tainted, the global heap may hold A in the
        field of a global B, the local heap is lifted when A is local and B
        global, and then, from the maps the lifting cleared, each site whose
        class has the field stores A in its slot. `npe` as for iget. */
    method IPut(a: int, b: int, ref: int) returns (npe: bool)
      requires PointsKnown(env)
      modifies this`regUpV, this`regUpH, this`regUpL, this`regUpG
      modifies this`regUpLHV, this`regUpLHH, this`regUpLHL, this`regUpLHG, this`regUpLHF, fsengine`mRules
      ensures var o := IPutRules(env, ctx, old(View()), a, b, ref);
        fsengine.mRules == old(fsengine.mRules) + o.rules && View() == o.state && npe == o.npe
    {
      ghost var u0, r0 := View(), fsengine.mRules;
      var w := ctx.width;
      var h := RAt(ctx, ctx.codeAddress, View());
      regUpH := regUpH[b := Or([RegVar(H, b), RegVar(H, a)])];
      var b' := RAt(ctx, ctx.nextCode, View());
      fsengine.AddRule(Implies(h, b'));
      assert fsengine.mRules == r0 + [TaintRule(ctx, u0, a, b)];
      regUpH := map[];
      ghost var u1 := u0.(h := map[]);
      assert View() == u1;
      h := And([Eq(True, Get(regUpG, b)), RAt(ctx, ctx.codeAddress, View()),
                FsHPred(NamedVar(Cn), RegVar(V, b), NamedVar(F), Bv(0, w), NamedVar(Lf), NamedVar(Bf))]);
      var cell := FsHPred(NamedVar(Cn), RegVar(V, b), Bv(ref, w), RegVar(V, a), RegVar(H, a), Or([RegVar(L, a), RegVar(G, a)]));
      fsengine.AddRule(Implies(h, cell));
      ghost var r1 := fsengine.mRules;
      assert r1 == r0 + [TaintRule(ctx, u0, a, b), IPutGlobalRule(ctx, u1, a, b, ref)];
      h := And([Eq(Get(regUpG, b), True), Eq(RegVar(L, a), True), RAt(ctx, ctx.codeAddress, View())]);
      var unused := LiftIfLocal(h, None);
      ghost var r2 := fsengine.mRules;
      assert r2 == r1 + LiftIfLocalRules(env, ctx, h);
      var s;
      s, npe := IPutLocalLoop(fsengine, env, ctx, View(), a, b, ref, env.points);
      SetMaps(s);
      AppendAssoc3(r0, [TaintRule(ctx, u0, a, b), IPutGlobalRule(ctx, u1, a, b, ref)],
                   LiftIfLocalRules(env, ctx, And([Eq(Get(u1.g, b), True), Eq(RegVar(L, a), True), RAt(ctx, ctx.codeAddress, u1)])),
                   IPutLocal(env, ctx, NoUpdates, a, b, ref, env.points).rules);
    }

    /** sget vA, field: A is first 0 with G at Bf; then, from the maps that
        still hold that override, A takes the static field's value. The
        field is looked up on the nearest declaring class. */
    method SGet(a: int, classRef: int, ref: int)
      modifies this`regUpV, this`regUpH, this`regUpL, this`regUpG, fsengine`mRules
      ensures fsengine.mRules == old(fsengine.mRules)
        + [SGetZeroRule(ctx, old(View()), a), SGetFieldRule(ctx, old(View()), a, StaticFieldClass(env, classRef, ref), ref)]
      ensures View() == SGetState(ctx, old(View()), a)
    {
      var found := StaticFieldLookup(env.classes, classRef, ref);
      var sfc := if found.Some? then found.value else classRef;
      var h := RAt(ctx, ctx.codeAddress, View());
      PutRegister(a, Reg4(Bv(0, ctx.width), False, False, NamedVar(Bf)));
      var b := RAt(ctx, ctx.nextCode, View());
      fsengine.AddRule(Implies(h, b));
      h := And([RAt(ctx, ctx.codeAddress, View()), FsSPred(IntLit(sfc), IntLit(ref), NamedVar(F), NamedVar(Lf), NamedVar(Bf))]);
      PutRegister(a, Reg4(NamedVar(F), NamedVar(Lf), False, NamedVar(Bf)));
      b := RAt(ctx, ctx.nextCode, View());
      fsengine.AddRule(Implies(h, b));
    }

    /** sput vA, field: the propagation, the static-field fact, and the
        lifting of the local heap when A is a local pointer. */
    method SPut(a: int, classRef: int, ref: int)
      requires PointsKnown(env)
      modifies this`regUpV, this`regUpH, this`regUpL, this`regUpG
      modifies this`regUpLHV, this`regUpLHH, this`regUpLHL, this`regUpLHG, this`regUpLHF, fsengine`mRules
      ensures fsengine.mRules == old(fsengine.mRules) + SPutRules(env, ctx, old(View()), a, classRef, ref)
      ensures View() == NoUpdates
    {
      ghost var u0, r0 := View(), fsengine.mRules;
      var found := StaticFieldLookup(env.classes, classRef, ref);
      var sfc := if found.Some? then found.value else classRef;
      var h := RAt(ctx, ctx.codeAddress, View());
      var b := RAt(ctx, ctx.nextCode, View());
      fsengine.AddRule(Implies(h, b));
      var fact := FsSPred(IntLit(sfc), IntLit(ref), RegVar(V, a), RegVar(H, a), And([RegVar(L, a), RegVar(G, a)]));
      fsengine.AddRule(Implies(h, fact));
      assert sfc == StaticFieldClass(env, classRef, ref);
      assert fsengine.mRules == r0 + [Step(ctx, u0, u0), SPutFactRule(ctx, u0, a, sfc, ref)];
      h := And([RAt(ctx, ctx.codeAddress, View()), Eq(RegVar(L, a), True)]);
      var unused := LiftIfLocal(h, None);
      AppendAssoc(r0, [Step(ctx, u0, u0), SPutFactRule(ctx, u0, a, sfc, ref)], LiftIfLocalRules(env, ctx, h));
    }

    // -------------------------------------------------------------------
    // Calls with known implementations

    /** One pass of the first loop: R here with the receiver register C
        holding the instance implies R at address 0 of the callee, with the
        arguments copied by `updateRegister`; the register maps are then
        cleared. */
    method CallStep(ins: FiveRegs, impl: Impl, inst: int)
      modifies this`regUpV, this`regUpH, this`regUpL, this`regUpG, fsengine`mRules
      ensures fsengine.mRules == old(fsengine.mRules) + [CallRule(ctx, old(View()), ins, impl, inst)]
      ensures View() == ClearRegs(old(View()))
    {
      ghost var u := View();
      var h := And([RAt(ctx, ctx.codeAddress, View()), Eq(RegVar(V, ins.c), Bv(inst, ctx.width))]);
      regUpV := UpdateRegister(impl.numReg, impl.numArg, V, Five(ins));
      regUpH := UpdateRegister(impl.numReg, impl.numArg, H, Five(ins));
      regUpL := UpdateRegister(impl.numReg, impl.numArg, L, Five(ins));
      regUpG := UpdateRegister(impl.numReg, impl.numArg, G, Five(ins));
      EntryMapsIs(u, ins, impl, View());
      var b := FsRPredInvok(impl.classLabel, impl.nameLabel, 0, View(), impl.numArg, impl.numReg, ctx.width, ctx.lhSize);
      fsengine.AddRule(Implies(h, b));
      ClearRegisters();
    }

    /** The first loop over the implementation's instances; the clauses
        after the first read the cleared register maps. */
    method CallLoop(ins: FiveRegs, impl: Impl)
      modifies this`regUpV, this`regUpH, this`regUpL, this`regUpG, fsengine`mRules
      ensures fsengine.mRules == old(fsengine.mRules) + CallRules(ctx, old(View()), ins, impl)
      ensures View() == ImplState(old(View()), impl)
    {
      ghost var u0, r0 := View(), fsengine.mRules;
      ghost var rules := CallRules(ctx, u0, ins, impl);
      var k := 0;
      while k < |impl.instances|
        invariant 0 <= k <= |impl.instances|
        invariant fsengine.mRules == r0 + rules[..k]
        invariant View() == if k == 0 then u0 else ClearRegs(u0)
      {
        CallStep(ins, impl, impl.instances[k]);
        assert rules[..k + 1] == rules[..k] + [rules[k]];
        k := k + 1;
      }
      assert rules[..k] == rules;
    }

    /** The summary half of a resume pass: the `updateResult` maps with the
        callee's result in slot numArg, over the callee's fresh local heap. */
    method SummaryClause(ins: FiveRegs, impl: Impl, refLabel: string) returns (summary: Expr)
      modifies this`regUpV, this`regUpH, this`regUpL, this`regUpG
      modifies this`regUpLHCV, this`regUpLHCH, this`regUpLHCL, this`regUpLHCG, this`regUpLHCF
      ensures summary == Summary(ctx, ins, impl, refLabel)
      ensures CalleeFresh()
      ensures var sm := SummaryMaps(ctx, ins, impl);
        regUpV == sm.v && regUpH == sm.h && regUpL == sm.l && regUpG == sm.g
    {
      regUpV := UpdateResult(impl.numReg, impl.numArg, V, Five(ins));
      regUpH := UpdateResult(impl.numReg, impl.numArg, H, Five(ins));
      regUpL := UpdateResult(impl.numReg, impl.numArg, L, Five(ins));
      regUpG := UpdateResult(impl.numReg, impl.numArg, G, Five(ins));
      regUpV := regUpV[impl.numArg := NamedVar(Rez)];
      regUpH := regUpH[impl.numArg := NamedVar(Hrez)];
      regUpL := regUpL[impl.numArg := NamedVar(Lrez)];
      regUpG := regUpG[impl.numArg := NamedVar(Grez)];
      InitializeLHC();
      SummaryMapsIs(ctx, ins, impl, Updates(regUpV, regUpH, regUpL, regUpG, Callee()));
      summary := FsResPred(impl.classLabel, refLabel, Updates(regUpV, regUpH, regUpL, regUpG, Callee()),
                           impl.numArg, ctx.lhSize);
    }

    /** The head half of a resume pass: the register maps cleared, G lifted
        by `liftLi`, the result put when the call returns a value, and the
        callee's heap with the joined filter flags. */
    method ResumedRegisters(impl: Impl, callReturns: bool)
      modifies this`regUpV, this`regUpH, this`regUpL, this`regUpG
      ensures AfterRegs(env, ctx, impl, callReturns, regUpV, regUpH, regUpL, regUpG)
    {
      regUpV, regUpH, regUpL, regUpG := map[], map[], map[], map[];
      var returnLabel := if impl.source then True else NamedVar(Hrez);
      LiftLi();
      if callReturns {
        regUpV := regUpV[ctx.numRegLoc := NamedVar(Rez)];
        regUpH := regUpH[ctx.numRegLoc := returnLabel];
        regUpL := regUpL[ctx.numRegLoc := NamedVar(Lrez)];
        regUpG := regUpG[ctx.numRegLoc := NamedVar(Grez)];
      }
    }

    method ResumedHead(ghost u: Updates, impl: Impl, callReturns: bool) returns (b: Expr)
      requires CalleeFresh() && u.lh == View().lh
      modifies this`regUpV, this`regUpH, this`regUpL, this`regUpG
      ensures b == ResumeHead(env, ctx, u, impl, callReturns)
    {
      ResumedRegisters(impl, callReturns);
      var regResLHF := JoinLoop(regUpLHF, regUpLHCF, ctx.lhSize);
      var after := Updates(regUpV, regUpH, regUpL, regUpG, HeapMaps(regUpLHCV, regUpLHCH, regUpLHCL, regUpLHCG, regResLHF));
      AfterCallIs(env, ctx, u, impl, callReturns, after);
      b := FsRPred(ctx.c, ctx.m, ctx.nextCode, after, ctx.numParLoc, ctx.numRegLoc, ctx.lhSize);
    }

    /** One pass of the second loop: R here, the callee's summary and the
        receiver imply R at the next address; the register maps are then
        cleared. */
    method ResumeStep(ins: FiveRegs, impl: Impl, refLabel: string, callReturns: bool, inst: int)
      modifies this`regUpV, this`regUpH, this`regUpL, this`regUpG, fsengine`mRules
      modifies this`regUpLHCV, this`regUpLHCH, this`regUpLHCL, this`regUpLHCG, this`regUpLHCF
      ensures fsengine.mRules == old(fsengine.mRules) + [ResumeRule(env, ctx, old(View()), ins, impl, refLabel, callReturns, inst)]
      ensures Cleared() && CalleeFresh()
    {
      ghost var u := View();
      var subh := RAt(ctx, ctx.codeAddress, View());
      var summary := SummaryClause(ins, impl, refLabel);
      ResumeTail(u, subh, summary, ins, impl, callReturns, inst);
    }

    /** The rule of a resume pass from its two premises, then the register
        maps cleared. */
    method ResumeTail(ghost u: Updates, subh: Expr, summary: Expr, ins: FiveRegs, impl: Impl, callReturns: bool, inst: int)
      requires CalleeFresh() && u.lh == View().lh
      modifies this`regUpV, this`regUpH, this`regUpL, this`regUpG, fsengine`mRules
      ensures fsengine.mRules == old(fsengine.mRules)
        + [Implies(And([subh, summary, Receiver(ctx, ins, inst)]), ResumeHead(env, ctx, u, impl, callReturns))]
      ensures Cleared()
    {
      var h := And([subh, summary, Eq(RegVar(V, ins.c), Bv(inst, ctx.width))]);
      var b := ResumedHead(u, impl, callReturns);
      fsengine.AddRule(Implies(h, b));
      regUpV, regUpH, regUpL, regUpG := map[], map[], map[], map[];
    }

    /** The second loop over the instances, from the maps the first loop
        left. */
    method ResumeLoop(ins: FiveRegs, impl: Impl, refLabel: string, callReturns: bool)
      requires impl.instances != [] ==> Cleared()
      modifies this`regUpV, this`regUpH, this`regUpL, this`regUpG, fsengine`mRules
      modifies this`regUpLHCV, this`regUpLHCH, this`regUpLHCL, this`regUpLHCG, this`regUpLHCF
      ensures fsengine.mRules == old(fsengine.mRules) + ResumeRules(env, ctx, ClearRegs(old(View())), ins, impl, refLabel, callReturns)
      ensures regUpV == old(regUpV) && regUpH == old(regUpH) && regUpL == old(regUpL) && regUpG == old(regUpG)
      ensures if impl.instances == [] then Callee() == old(Callee()) else CalleeFresh()
    {
      ghost var u, r0 := View(), fsengine.mRules;
      ghost var u0 := ClearRegs(u);
      ghost var rules := ResumeRules(env, ctx, u0, ins, impl, refLabel, callReturns);
      var k := 0;
      while k < |impl.instances|
        invariant 0 <= k <= |impl.instances|
        invariant fsengine.mRules == r0 + rules[..k]
        invariant regUpV == old(regUpV) && regUpH == old(regUpH) && regUpL == old(regUpL) && regUpG == old(regUpG)
        invariant if k == 0 then Callee() == old(Callee()) else CalleeFresh()
      {
        ResumeNext(u, r0, ins, impl, refLabel, callReturns, k);
        k := k + 1;
      }
      assert rules[..k] == rules;
    }

    /** The sink queries of one implementation, at R here. */
    method ImplSinkQueries(ins: FiveRegs, impl: Impl, className: string, methodName: string, pc: string,
                           refString: string, verbose: bool)
      modifies fsengine`mQueries, fsengine`mCurrentQuery
      ensures fsengine.QueryView()
        == Feed(old(fsengine.QueryView()), ImplQueries(ctx, View(), ins, impl, className, methodName, pc, refString, verbose))
    {
      if impl.sink {
        AddQuery(RAt(ctx, ctx.codeAddress, View()), ins, className, methodName, pc, refString, verbose);
      }
    }

    /** One pass of the second loop: clause k over the maps `u` cleared. */
    method ResumeNext(ghost u: Updates, ghost r0: seq<Expr>, ins: FiveRegs, impl: Impl, refLabel: string,
                      callReturns: bool, k: nat)
      requires k < |impl.instances| && Cleared() && View().lh == u.lh
      requires fsengine.mRules == r0 + ResumeRules(env, ctx, ClearRegs(u), ins, impl, refLabel, callReturns)[..k]
      modifies this`regUpV, this`regUpH, this`regUpL, this`regUpG, fsengine`mRules
      modifies this`regUpLHCV, this`regUpLHCH, this`regUpLHCL, this`regUpLHCG, this`regUpLHCF
      ensures fsengine.mRules == r0 + ResumeRules(env, ctx, ClearRegs(u), ins, impl, refLabel, callReturns)[..k + 1]
      ensures Cleared() && CalleeFresh()
    {
      ghost var rules := ResumeRules(env, ctx, ClearRegs(u), ins, impl, refLabel, callReturns);
      ClearedIs(u, View());
      ResumeStep(ins, impl, refLabel, callReturns, impl.instances[k]);
      assert rules[..k + 1] == rules[..k] + [rules[k]];
    }

    /** One implementation: its sink queries at R here, then both loops. */
    method InvokeImpl(ins: FiveRegs, impl: Impl, refLabel: string, callReturns: bool, className: string,
                      methodName: string, pc: string, refString: string, verbose: bool)
      modifies this`regUpV, this`regUpH, this`regUpL, this`regUpG, fsengine`mRules
      modifies this`regUpLHCV, this`regUpLHCH, this`regUpLHCL, this`regUpLHCG, this`regUpLHCF
      modifies fsengine`mQueries, fsengine`mCurrentQuery
      ensures fsengine.mRules == old(fsengine.mRules) + ImplRules(env, ctx, old(View()), ins, impl, refLabel, callReturns)
      ensures fsengine.QueryView()
        == Feed(old(fsengine.QueryView()), ImplQueries(ctx, old(View()), ins, impl, className, methodName, pc, refString, verbose))
      ensures View() == ImplState(old(View()), impl)
      ensures if impl.instances == [] then Callee() == old(Callee()) else CalleeFresh()
    {
      ghost var u0, r0 := View(), fsengine.mRules;
      ImplSinkQueries(ins, impl, className, methodName, pc, refString, verbose);
      ghost var q1 := fsengine.QueryView();
      CallLoop(ins, impl);
      ghost var u1, r1 := View(), fsengine.mRules;
      ImplStateCleared(u0, impl, u1);
      ResumeLoop(ins, impl, refLabel, callReturns);
      AppendAssoc(r0, CallRules(ctx, u0, ins, impl), ResumeRules(env, ctx, ClearRegs(u0), ins, impl, refLabel, callReturns));
      assert View() == u1;
      assert fsengine.QueryView() == q1;
    }

    /** The loop over the implementations of the called method. */
    method InvokeDefined(ins: FiveRegs, impls: seq<Impl>, refLabel: string, callReturns: bool, className: string,
                         methodName: string, pc: string, refString: string, verbose: bool)
      modifies this`regUpV, this`regUpH, this`regUpL, this`regUpG, fsengine`mRules
      modifies this`regUpLHCV, this`regUpLHCH, this`regUpLHCL, this`regUpLHCG, this`regUpLHCF
      modifies fsengine`mQueries, fsengine`mCurrentQuery
      ensures fsengine.mRules == old(fsengine.mRules) + InvokeRules(env, ctx, old(View()), ins, impls, refLabel, callReturns)
      ensures fsengine.QueryView()
        == Feed(old(fsengine.QueryView()), InvokeQueries(ctx, old(View()), ins, impls, className, methodName, pc, refString, verbose))
      ensures View() == StateAfter(old(View()), impls)
      ensures if AnyInstances(impls) then CalleeFresh() else Callee() == old(Callee())
    {
      ghost var u0, r0, q0 := View(), fsengine.mRules, fsengine.QueryView();
      var k := 0;
      assert impls[..0] == [];
      while k < |impls|
        invariant 0 <= k <= |impls|
        invariant fsengine.mRules == r0 + InvokeRules(env, ctx, u0, ins, impls[..k], refLabel, callReturns)
        invariant fsengine.QueryView()
          == Feed(q0, InvokeQueries(ctx, u0, ins, impls[..k], className, methodName, pc, refString, verbose))
        invariant View() == StateAfter(u0, impls[..k])
        invariant if AnyInstances(impls[..k]) then CalleeFresh() else Callee() == old(Callee())
      {
        InvokeNext(u0, r0, q0, old(Callee()), ins, impls, k, refLabel, callReturns, className, methodName, pc, refString, verbose);
        k := k + 1;
      }
      assert impls[..k] == impls;
    }

    /** One pass of the loop over the implementations: implementation k
        extends the rules, the queries and the maps of the first k. */
    method InvokeNext(ghost u0: Updates, ghost r0: seq<Expr>, ghost q0: QueryState, ghost c0: HeapMaps,
                      ins: FiveRegs, impls: seq<Impl>, k: nat, refLabel: string, callReturns: bool, className: string,
                      methodName: string, pc: string, refString: string, verbose: bool)
      requires k < |impls|
      requires fsengine.mRules == r0 + InvokeRules(env, ctx, u0, ins, impls[..k], refLabel, callReturns)
      requires fsengine.QueryView()
        == Feed(q0, InvokeQueries(ctx, u0, ins, impls[..k], className, methodName, pc, refString, verbose))
      requires View() == StateAfter(u0, impls[..k])
      requires if AnyInstances(impls[..k]) then CalleeFresh() else Callee() == c0
      modifies this`regUpV, this`regUpH, this`regUpL, this`regUpG, fsengine`mRules
      modifies this`regUpLHCV, this`regUpLHCH, this`regUpLHCL, this`regUpLHCG, this`regUpLHCF
      modifies fsengine`mQueries, fsengine`mCurrentQuery
      ensures fsengine.mRules == r0 + InvokeRules(env, ctx, u0, ins, impls[..k + 1], refLabel, callReturns)
      ensures fsengine.QueryView()
        == Feed(q0, InvokeQueries(ctx, u0, ins, impls[..k + 1], className, methodName, pc, refString, verbose))
      ensures View() == StateAfter(u0, impls[..k + 1])
      ensures if AnyInstances(impls[..k + 1]) then CalleeFresh() else Callee() == c0
    {
      InvokePrefix(env, ctx, u0, ins, impls, k, refLabel, callReturns, className, methodName, pc, refString, verbose, q0);
      InvokeImpl(ins, impls[k], refLabel, callReturns, className, methodName, pc, refString, verbose);
      AppendAssoc(r0, InvokeRules(env, ctx, u0, ins, impls[..k], refLabel, callReturns),
                  ImplRules(env, ctx, StateAfter(u0, impls[..k]), ins, impls[k], refLabel, callReturns));
    }

    /** invoke-virtual, invoke-super, invoke-interface: the implementations
        of the looked-up method are visited when it has an entry in
        `implementations`; otherwise the call is asked about when the called
        method is a sink. The result says whether the method was defined. */
    method InvokeVirtual(implementations: map<(int, int), seq<Impl>>, refClass: int, refMethod: int, ins: FiveRegs,
                         refLabel: string, callReturns: bool, className: string, methodName: string, pc: string,
                         refString: string, verbose: bool, unresolvedSink: bool) returns (isDefined: bool)
      modifies this`regUpV, this`regUpH, this`regUpL, this`regUpG, fsengine`mRules
      modifies this`regUpLHCV, this`regUpLHCH, this`regUpLHCL, this`regUpLHCG, this`regUpLHCF
      modifies fsengine`mQueries, fsengine`mCurrentQuery
      ensures isDefined <==> ImplementationKey(refClass, refMethod) in implementations
      ensures isDefined ==> var impls := implementations[ImplementationKey(refClass, refMethod)];
        && fsengine.mRules == old(fsengine.mRules) + InvokeRules(env, ctx, old(View()), ins, impls, refLabel, callReturns)
        && fsengine.QueryView()
           == Feed(old(fsengine.QueryView()), InvokeQueries(ctx, old(View()), ins, impls, className, methodName, pc, refString, verbose))
        && View() == StateAfter(old(View()), impls)
        && if AnyInstances(impls) then CalleeFresh() else Callee() == old(Callee())
      ensures !isDefined ==>
        && fsengine.mRules == old(fsengine.mRules)
        && fsengine.QueryView()
           == Feed(old(fsengine.QueryView()), UnresolvedQueries(ctx, old(View()), ins, unresolvedSink, className, methodName, pc, refString, verbose))
        && View() == old(View()) && Callee() == old(Callee())
    {
      var key := ImplementationKey(refClass, refMethod);
      isDefined := key in implementations;
      if isDefined {
        InvokeDefined(ins, implementations[key], refLabel, callReturns, className, methodName, pc, refString, verbose);
      } else {
        UnresolvedSinkQueries(ins, unresolvedSink, className, methodName, pc, refString, verbose);
      }
    }

    /** The sink queries of a call with no known implementation, at R here. */
    method UnresolvedSinkQueries(ins: FiveRegs, sink: bool, className: string, methodName: string, pc: string,
                                 refString: string, verbose: bool)
      modifies fsengine`mQueries, fsengine`mCurrentQuery
      ensures fsengine.QueryView()
        == Feed(old(fsengine.QueryView()), UnresolvedQueries(ctx, View(), ins, sink, className, methodName, pc, refString, verbose))
    {
      if sink {
        AddQuery(RAt(ctx, ctx.codeAddress, View()), ins, className, methodName, pc, refString, verbose);
      }
    }

    // -------------------------------------------------------------------
    // Sink queries

    /** `addQuery(p, …)`: the switch on the register count falls through
        from the last argument register down to C, asking for each whether
        its high label holds at p. */
    method AddQuery(p: Expr, ins: FiveRegs, className: string, methodName: string, pc: string,
                    sinkName: string, verbose: bool)
      modifies fsengine`mQueries, fsengine`mCurrentQuery
      ensures fsengine.QueryView()
        == Feed(old(fsengine.QueryView()), SinkQueries(p, ins, className, methodName, pc, sinkName, verbose))
    {
      ghost var s0 := fsengine.QueryView();
      assert SinkQueries(p, ins, className, methodName, pc, sinkName, verbose)[..0] == [];
      AskHigh(fsengine, s0, p, ins, className, methodName, pc, sinkName, verbose, 5);
      AskHigh(fsengine, s0, p, ins, className, methodName, pc, sinkName, verbose, 4);
      AskHigh(fsengine, s0, p, ins, className, methodName, pc, sinkName, verbose, 3);
      AskHigh(fsengine, s0, p, ins, className, methodName, pc, sinkName, verbose, 2);
      AskHigh(fsengine, s0, p, ins, className, methodName, pc, sinkName, verbose, 1);
      assert SinkQueries(p, ins, className, methodName, pc, sinkName, verbose)[..ArgCount(ins)]
          == SinkQueries(p, ins, className, methodName, pc, sinkName, verbose);
    }

  }
}
