/**
 * The clauses of a flow-sensitive invoke-virtual, invoke-super or
 * invoke-interface whose implementations are known.
 *
 * For every implementation (a class defining the called method) and every
 * instance of that class, one clause enters the callee: when the receiver
 * register holds the instance, `R` of the callee's first instruction holds
 * with the arguments copied into the callee's parameter registers. A second
 * clause resumes the caller: when the callee's summary `RES` holds for the
 * arguments, the caller continues at the next address with the callee's
 * result in the result register and the callee's local heap in place of
 * its own. An implementation that is a sink also asks, for each argument,
 * whether it is secret at the call.
 */
module FsInvoke {
  import opened Wrappers
  import opened JavaInt
  import opened Exprs
  import opened Queries
  import opened FsEngine
  import opened FsInstr
  import opened FsHeap
  import opened Calls
  import opened HeapRules

  /** One implementation of the called method: the labels of the callee's
      relations (`Integer.toString` of the hash codes of its class's type and
      of the method's name), the callee's register and argument counts, the
      hash codes of the class's instances, and whether the class and the
      called method form a sink or a source. */
  datatype Impl = Impl(classLabel: string, nameLabel: string, numReg: nat, numArg: nat,
                       instances: seq<int>, sink: bool, source: bool)

  // ---------------------------------------------------------------------
  // Which implementations are looked up

  const RunnableType := "Ljava/lang/Runnable;"
  const ExecutorServiceType := "Ljava/util/concurrent/ExecutorService;"
  const RunMethod := "run()V"
  const ExecuteRunnable := "execute(Ljava/lang/Runnable;)V"
  const StartMethod := "start()V"
  const ExecuteAsyncTask := "execute([Ljava/lang/Object;)Landroid/os/AsyncTask;"
  const DoInBackground := "doInBackground([Ljava/lang/Object;)Ljava/lang/Object;"

  /** The (class, method) pair whose implementations are looked up: an
      executor's execute(Runnable) runs `Runnable.run()`, a thread's start()
      its class's run(), an AsyncTask's execute its doInBackground; every
      other call the called method itself. The three tests are made in this
      order, a later match replacing an earlier one. */
  function ImplementationKey(refClass: int, refMethod: int): (key: (int, int))
    ensures key.0 == refClass || key == (StringHash(RunnableType), StringHash(RunMethod))
    ensures key.1 == refMethod || key.1 == StringHash(RunMethod) || key.1 == StringHash(DoInBackground)
  {
    var executor := if refMethod == StringHash(ExecuteRunnable) && refClass == StringHash(ExecutorServiceType)
                    then Some((StringHash(RunnableType), StringHash(RunMethod))) else None;
    var thread := if refMethod == StringHash(StartMethod) then Some((refClass, StringHash(RunMethod))) else executor;
    var task := if refMethod == StringHash(ExecuteAsyncTask) then Some((refClass, StringHash(DoInBackground))) else thread;
    if task.Some? then task.value else (refClass, refMethod)
  }

  /** A call that starts no thread or task looks up the called method itself. */
  lemma OrdinaryCallKey(refClass: int, refMethod: int)
    requires !(refMethod == StringHash(ExecuteRunnable) && refClass == StringHash(ExecutorServiceType))
    requires refMethod != StringHash(StartMethod) && refMethod != StringHash(ExecuteAsyncTask)
    ensures ImplementationKey(refClass, refMethod) == (refClass, refMethod)
  {
  }

  // ---------------------------------------------------------------------
  // Entering the callee

  /** The callee-entry maps: the argument registers C, D, … go to the
      callee's last numArg local registers and to its parameter registers;
      the local heap is passed on. */
  function EntryMaps(u: Updates, ins: FiveRegs, impl: Impl): Updates {
    Updates(UpdateRegisterFive(impl.numReg, impl.numArg, V, ins), UpdateRegisterFive(impl.numReg, impl.numArg, H, ins),
            UpdateRegisterFive(impl.numReg, impl.numArg, L, ins), UpdateRegisterFive(impl.numReg, impl.numArg, G, ins), u.lh)
  }

  /** The receiver register C holds the instance. */
  function Receiver(ctx: Ctx, ins: FiveRegs, inst: int): Expr {
    Eq(RegVar(V, ins.c), Bv(inst, ctx.width))
  }

  /** `R` at address 0 of the callee, from the entry maps `e`. */
  function CallHead(ctx: Ctx, e: Updates, impl: Impl): Expr {
    FsRPredInvok(impl.classLabel, impl.nameLabel, 0, e, impl.numArg, impl.numReg, ctx.width, ctx.lhSize)
  }

  /** `R` here with the receiver `inst` implies `R` at address 0 of the callee. */
  function CallRule(ctx: Ctx, u: Updates, ins: FiveRegs, impl: Impl, inst: int): Expr {
    Implies(And([RAt(ctx, ctx.codeAddress, u), Receiver(ctx, ins, inst)]), CallHead(ctx, EntryMaps(u, ins, impl), impl))
  }

  /** One call clause per instance; the register maps are cleared after the
      first, so later clauses read `R` with the registers' own variables. */
  function CallRules(ctx: Ctx, u: Updates, ins: FiveRegs, impl: Impl): seq<Expr> {
    seq(|impl.instances|, k requires 0 <= k < |impl.instances| =>
      CallRule(ctx, if k == 0 then u else ClearRegs(u), ins, impl, impl.instances[k]))
  }

  // ---------------------------------------------------------------------
  // Resuming the caller

  /** The callee's local heap as `initializeLHC` leaves it: slot i holds the
      callee-heap variables of slot i. */
  function CalleeHeap(n: nat): HeapMaps {
    HeapMaps(Override(map[], 0, n, VarGen(LHCV)), Override(map[], 0, n, VarGen(LHCH)), Override(map[], 0, n, VarGen(LHCL)),
             Override(map[], 0, n, VarGen(LHCG)), Override(map[], 0, n, VarGen(LHCF)))
  }

  /** The summary maps: argument k of the callee shows caller register k of
      the call, slot numArg the callee's result, the heap the callee's. */
  function SummaryMaps(ctx: Ctx, ins: FiveRegs, impl: Impl): Updates {
    Updates(UpdateResultFive(impl.numArg, V, ins)[impl.numArg := NamedVar(Rez)],
            UpdateResultFive(impl.numArg, H, ins)[impl.numArg := NamedVar(Hrez)],
            UpdateResultFive(impl.numArg, L, ins)[impl.numArg := NamedVar(Lrez)],
            UpdateResultFive(impl.numArg, G, ins)[impl.numArg := NamedVar(Grez)],
            CalleeHeap(ctx.lhSize))
  }

  /** A source returns a secret; otherwise the result is as secret as the callee made it. */
  function ReturnLabel(impl: Impl): Expr {
    if impl.source then True else NamedVar(Hrez)
  }

  /** The maps of the resumed caller: every register's G lifted by `liftLi`,
      the result register (when the call returns a value) the callee's
      result, the callee's local heap with the filter flags joined. */
  function AfterCall(env: Env, ctx: Ctx, u: Updates, impl: Impl, callReturns: bool): Updates {
    var callee := CalleeHeap(ctx.lhSize);
    var base := Updates(map[], map[], map[], Override(map[], 0, Regs(ctx), LiftLiGen(env, ctx.width)),
                        callee.(f := Override(map[], 0, ctx.lhSize, JoinGen(u.lh.f, callee.f))));
    if callReturns then PutReg(base, ctx.numRegLoc, Reg4(NamedVar(Rez), ReturnLabel(impl), NamedVar(Lrez), NamedVar(Grez)))
    else base
  }

  /** The summary `RES` of the called method in the implementation's class. */
  function Summary(ctx: Ctx, ins: FiveRegs, impl: Impl, refLabel: string): Expr {
    FsResPred(impl.classLabel, refLabel, SummaryMaps(ctx, ins, impl), impl.numArg, ctx.lhSize)
  }

  /** `R` at the next address, from the resumed maps. */
  function ResumeHead(env: Env, ctx: Ctx, u: Updates, impl: Impl, callReturns: bool): Expr {
    RAt(ctx, ctx.nextCode, AfterCall(env, ctx, u, impl, callReturns))
  }

  /** `R` here, the summary and the receiver `inst` imply `R` at the next address. */
  function ResumeRule(env: Env, ctx: Ctx, u: Updates, ins: FiveRegs, impl: Impl, refLabel: string,
                      callReturns: bool, inst: int): Expr {
    Implies(And([RAt(ctx, ctx.codeAddress, u), Summary(ctx, ins, impl, refLabel), Receiver(ctx, ins, inst)]),
            ResumeHead(env, ctx, u, impl, callReturns))
  }

  /** One resume clause per instance, all from the maps u. */
  function ResumeRules(env: Env, ctx: Ctx, u: Updates, ins: FiveRegs, impl: Impl, refLabel: string,
                       callReturns: bool): seq<Expr> {
    seq(|impl.instances|, k requires 0 <= k < |impl.instances| =>
      ResumeRule(env, ctx, u, ins, impl, refLabel, callReturns, impl.instances[k]))
  }

  /** Maps equal component-wise to the entry maps are the entry maps. */
  lemma EntryMapsIs(u: Updates, ins: FiveRegs, impl: Impl, a: Updates)
    requires a.v == UpdateRegisterFive(impl.numReg, impl.numArg, V, ins)
    requires a.h == UpdateRegisterFive(impl.numReg, impl.numArg, H, ins)
    requires a.l == UpdateRegisterFive(impl.numReg, impl.numArg, L, ins)
    requires a.g == UpdateRegisterFive(impl.numReg, impl.numArg, G, ins)
    requires a.lh == u.lh
    ensures a == EntryMaps(u, ins, impl)
  {
  }

  /** Maps equal component-wise to the summary maps are the summary maps. */
  lemma SummaryMapsIs(ctx: Ctx, ins: FiveRegs, impl: Impl, a: Updates)
    requires a.v == UpdateResultFive(impl.numArg, V, ins)[impl.numArg := NamedVar(Rez)]
    requires a.h == UpdateResultFive(impl.numArg, H, ins)[impl.numArg := NamedVar(Hrez)]
    requires a.l == UpdateResultFive(impl.numArg, L, ins)[impl.numArg := NamedVar(Lrez)]
    requires a.g == UpdateResultFive(impl.numArg, G, ins)[impl.numArg := NamedVar(Grez)]
    requires a.lh == CalleeHeap(ctx.lhSize)
    ensures a == SummaryMaps(ctx, ins, impl)
  {
  }

  /** Maps equal component-wise to the resumed maps are the resumed maps. */
  predicate AfterRegs(env: Env, ctx: Ctx, impl: Impl, callReturns: bool,
                      v: map<int, Expr>, h: map<int, Expr>, l: map<int, Expr>, g: map<int, Expr>) {
    var lifted := Override(map[], 0, Regs(ctx), LiftLiGen(env, ctx.width));
    if callReturns then
      v == map[ctx.numRegLoc := NamedVar(Rez)] && h == map[ctx.numRegLoc := ReturnLabel(impl)]
      && l == map[ctx.numRegLoc := NamedVar(Lrez)] && g == lifted[ctx.numRegLoc := NamedVar(Grez)]
    else
      v == map[] && h == map[] && l == map[] && g == lifted
  }

  lemma AfterCallIs(env: Env, ctx: Ctx, u: Updates, impl: Impl, callReturns: bool, a: Updates)
    requires AfterRegs(env, ctx, impl, callReturns, a.v, a.h, a.l, a.g)
    requires var c := CalleeHeap(ctx.lhSize);
      a.lh.v == c.v && a.lh.h == c.h && a.lh.l == c.l && a.lh.g == c.g
      && a.lh.f == Override(map[], 0, ctx.lhSize, JoinGen(u.lh.f, c.f))
    ensures a == AfterCall(env, ctx, u, impl, callReturns)
  {
  }

  // ---------------------------------------------------------------------
  // All implementations

  /** The call clauses of one implementation, then its resume clauses, which
      read the maps as the call loop left them. */
  function ImplRules(env: Env, ctx: Ctx, u: Updates, ins: FiveRegs, impl: Impl, refLabel: string,
                     callReturns: bool): seq<Expr> {
    CallRules(ctx, u, ins, impl) + ResumeRules(env, ctx, ClearRegs(u), ins, impl, refLabel, callReturns)
  }

  /** The sink queries of one implementation, asked at `R` here. */
  function ImplQueries(ctx: Ctx, u: Updates, ins: FiveRegs, impl: Impl, className: string, methodName: string,
                       pc: string, refString: string, verbose: bool): seq<Query> {
    if impl.sink then SinkQueries(RAt(ctx, ctx.codeAddress, u), ins, className, methodName, pc, refString, verbose)
    else []
  }

  /** The sink queries of a call whose method has no known implementation,
      asked at `R` here when the called method is a sink. */
  function UnresolvedQueries(ctx: Ctx, u: Updates, ins: FiveRegs, sink: bool, className: string, methodName: string,
                             pc: string, refString: string, verbose: bool): seq<Query> {
    if sink then SinkQueries(RAt(ctx, ctx.codeAddress, u), ins, className, methodName, pc, refString, verbose)
    else []
  }

  /** The maps after one implementation: its loops clear the register maps
      once it has an instance. */
  function ImplState(u: Updates, impl: Impl): Updates {
    if impl.instances == [] then u else ClearRegs(u)
  }

  /** After one implementation the registers are cleared exactly when it has
      an instance, and clearing again changes nothing. */
  lemma ImplStateCleared(u: Updates, impl: Impl, a: Updates)
    requires a == ImplState(u, impl)
    ensures impl.instances != [] ==> a.v == map[] && a.h == map[] && a.l == map[] && a.g == map[]
    ensures ClearRegs(a) == ClearRegs(u)
  {
  }

  function InvokeRules(env: Env, ctx: Ctx, u: Updates, ins: FiveRegs, impls: seq<Impl>, refLabel: string,
                       callReturns: bool): seq<Expr>
    decreases |impls|
  {
    if impls == [] then []
    else ImplRules(env, ctx, u, ins, impls[0], refLabel, callReturns)
         + InvokeRules(env, ctx, ImplState(u, impls[0]), ins, impls[1..], refLabel, callReturns)
  }

  function InvokeQueries(ctx: Ctx, u: Updates, ins: FiveRegs, impls: seq<Impl>, className: string, methodName: string,
                         pc: string, refString: string, verbose: bool): seq<Query>
    decreases |impls|
  {
    if impls == [] then []
    else ImplQueries(ctx, u, ins, impls[0], className, methodName, pc, refString, verbose)
         + InvokeQueries(ctx, ImplState(u, impls[0]), ins, impls[1..], className, methodName, pc, refString, verbose)
  }

  function StateAfter(u: Updates, impls: seq<Impl>): Updates
    decreases |impls|
  {
    if impls == [] then u else StateAfter(ImplState(u, impls[0]), impls[1..])
  }

  /** Some implementation has an instance. */
  predicate AnyInstances(impls: seq<Impl>)
    decreases |impls|
  {
    impls != [] && (impls[0].instances != [] || AnyInstances(impls[1..]))
  }

  /** The number of instances over all implementations. */
  function InstanceCount(impls: seq<Impl>): nat
    decreases |impls|
  {
    if impls == [] then 0 else |impls[0].instances| + InstanceCount(impls[1..])
  }

  /** The number of implementations that are sinks. */
  function SinkCount(impls: seq<Impl>): nat
    decreases |impls|
  {
    if impls == [] then 0 else (if impls[0].sink then 1 else 0) + SinkCount(impls[1..])
  }

  /** One more implementation appends its clauses, read from the state the
      earlier ones left. */
  lemma {:induction false} InvokeRulesSnoc(env: Env, ctx: Ctx, u: Updates, ins: FiveRegs, impls: seq<Impl>, x: Impl,
                                           refLabel: string, callReturns: bool)
    ensures InvokeRules(env, ctx, u, ins, impls + [x], refLabel, callReturns)
         == InvokeRules(env, ctx, u, ins, impls, refLabel, callReturns)
            + ImplRules(env, ctx, StateAfter(u, impls), ins, x, refLabel, callReturns)
    decreases |impls|
  {
    if impls == [] {
      assert [x][1..] == [];
    } else {
      assert (impls + [x])[1..] == impls[1..] + [x];
      InvokeRulesSnoc(env, ctx, ImplState(u, impls[0]), ins, impls[1..], x, refLabel, callReturns);
    }
  }

  lemma {:induction false} InvokeQueriesSnoc(ctx: Ctx, u: Updates, ins: FiveRegs, impls: seq<Impl>, x: Impl,
                                             className: string, methodName: string, pc: string, refString: string,
                                             verbose: bool)
    ensures InvokeQueries(ctx, u, ins, impls + [x], className, methodName, pc, refString, verbose)
         == InvokeQueries(ctx, u, ins, impls, className, methodName, pc, refString, verbose)
            + ImplQueries(ctx, StateAfter(u, impls), ins, x, className, methodName, pc, refString, verbose)
    decreases |impls|
  {
    if impls == [] {
      assert [x][1..] == [];
    } else {
      var u' := ImplState(u, impls[0]);
      assert (impls + [x])[1..] == impls[1..] + [x];
      InvokeQueriesSnoc(ctx, u', ins, impls[1..], x, className, methodName, pc, refString, verbose);
      QueriesAssoc(ImplQueries(ctx, u, ins, impls[0], className, methodName, pc, refString, verbose),
                   InvokeQueries(ctx, u', ins, impls[1..], className, methodName, pc, refString, verbose),
                   ImplQueries(ctx, StateAfter(u', impls[1..]), ins, x, className, methodName, pc, refString, verbose));
    }
  }

  lemma QueriesAssoc(a: seq<Query>, b: seq<Query>, c: seq<Query>)
    ensures a + (b + c) == (a + b) + c
  {
  }

  lemma {:induction false} StateAfterSnoc(u: Updates, impls: seq<Impl>, x: Impl)
    ensures StateAfter(u, impls + [x]) == ImplState(StateAfter(u, impls), x)
    decreases |impls|
  {
    if impls == [] {
      assert [x][1..] == [];
    } else {
      assert (impls + [x])[1..] == impls[1..] + [x];
      StateAfterSnoc(ImplState(u, impls[0]), impls[1..], x);
    }
  }

  lemma {:induction false} AnyInstancesSnoc(impls: seq<Impl>, x: Impl)
    ensures AnyInstances(impls + [x]) <==> AnyInstances(impls) || x.instances != []
    decreases |impls|
  {
    if impls == [] {
      assert [x][1..] == [];
    } else {
      assert (impls + [x])[1..] == impls[1..] + [x];
      AnyInstancesSnoc(impls[1..], x);
    }
  }

  /** The loop over the implementations, one step further: every total over
      the first k + 1 implementations is the total over the first k followed
      by implementation k. */
  lemma InvokePrefix(env: Env, ctx: Ctx, u: Updates, ins: FiveRegs, impls: seq<Impl>, k: nat, refLabel: string,
                     callReturns: bool, className: string, methodName: string, pc: string, refString: string,
                     verbose: bool, q: QueryState)
    requires k < |impls|
    ensures InvokeRules(env, ctx, u, ins, impls[..k + 1], refLabel, callReturns)
         == InvokeRules(env, ctx, u, ins, impls[..k], refLabel, callReturns)
            + ImplRules(env, ctx, StateAfter(u, impls[..k]), ins, impls[k], refLabel, callReturns)
    ensures Feed(q, InvokeQueries(ctx, u, ins, impls[..k + 1], className, methodName, pc, refString, verbose))
         == Feed(Feed(q, InvokeQueries(ctx, u, ins, impls[..k], className, methodName, pc, refString, verbose)),
                 ImplQueries(ctx, StateAfter(u, impls[..k]), ins, impls[k], className, methodName, pc, refString, verbose))
    ensures StateAfter(u, impls[..k + 1]) == ImplState(StateAfter(u, impls[..k]), impls[k])
    ensures AnyInstances(impls[..k + 1]) <==> AnyInstances(impls[..k]) || impls[k].instances != []
  {
    assert impls[..k + 1] == impls[..k] + [impls[k]];
    InvokeRulesSnoc(env, ctx, u, ins, impls[..k], impls[k], refLabel, callReturns);
    InvokeQueriesSnoc(ctx, u, ins, impls[..k], impls[k], className, methodName, pc, refString, verbose);
    FeedAppend(q, InvokeQueries(ctx, u, ins, impls[..k], className, methodName, pc, refString, verbose),
               ImplQueries(ctx, StateAfter(u, impls[..k]), ins, impls[k], className, methodName, pc, refString, verbose));
    StateAfterSnoc(u, impls[..k], impls[k]);
    AnyInstancesSnoc(impls[..k], impls[k]);
  }

  // ---------------------------------------------------------------------
  // Properties

  /** Two clauses per instance: one entering the callee, one resuming. */
  lemma {:induction false} InvokeRuleCount(env: Env, ctx: Ctx, u: Updates, ins: FiveRegs, impls: seq<Impl>,
                                           refLabel: string, callReturns: bool)
    ensures |InvokeRules(env, ctx, u, ins, impls, refLabel, callReturns)| == 2 * InstanceCount(impls)
    decreases |impls|
  {
    if impls != [] {
      InvokeRuleCount(env, ctx, ImplState(u, impls[0]), ins, impls[1..], refLabel, callReturns);
    }
  }

  /** The number of queries when each sink implementation asks `a` of them. */
  function QueryTotal(impls: seq<Impl>, a: nat): nat
    decreases |impls|
  {
    if impls == [] then 0 else (if impls[0].sink then a else 0) + QueryTotal(impls[1..], a)
  }

  lemma {:induction false} InvokeQueryTotal(ctx: Ctx, u: Updates, ins: FiveRegs, impls: seq<Impl>, className: string,
                                            methodName: string, pc: string, refString: string, verbose: bool)
    ensures |InvokeQueries(ctx, u, ins, impls, className, methodName, pc, refString, verbose)| == QueryTotal(impls, ArgCount(ins))
    decreases |impls|
  {
    if impls != [] {
      InvokeQueryTotal(ctx, ImplState(u, impls[0]), ins, impls[1..], className, methodName, pc, refString, verbose);
      ImplQueryCount(ctx, u, ins, impls[0], className, methodName, pc, refString, verbose);
    }
  }

  lemma {:induction false} QueryTotalIsProduct(impls: seq<Impl>, a: nat)
    ensures QueryTotal(impls, a) == a * SinkCount(impls)
    decreases |impls|
  {
    if impls != [] {
      QueryTotalIsProduct(impls[1..], a);
      var b := SinkCount(impls[1..]);
      assert a * SinkCount(impls) == (if impls[0].sink then a else 0) + a * b;
    }
  }

  /** Each sink implementation asks once per argument. */
  lemma InvokeQueryCount(ctx: Ctx, u: Updates, ins: FiveRegs, impls: seq<Impl>, className: string,
                         methodName: string, pc: string, refString: string, verbose: bool)
    ensures |InvokeQueries(ctx, u, ins, impls, className, methodName, pc, refString, verbose)| == ArgCount(ins) * SinkCount(impls)
  {
    InvokeQueryTotal(ctx, u, ins, impls, className, methodName, pc, refString, verbose);
    QueryTotalIsProduct(impls, ArgCount(ins));
  }

  lemma ImplQueryCount(ctx: Ctx, u: Updates, ins: FiveRegs, impl: Impl, className: string,
                       methodName: string, pc: string, refString: string, verbose: bool)
    ensures |ImplQueries(ctx, u, ins, impl, className, methodName, pc, refString, verbose)| == if impl.sink then ArgCount(ins) else 0
  {
  }

  /** The register maps end cleared exactly when some implementation has an
      instance; the local-heap maps are never changed. */
  lemma {:induction false} StateAfterCleared(u: Updates, impls: seq<Impl>)
    ensures StateAfter(u, impls) == if AnyInstances(impls) then ClearRegs(u) else u
    decreases |impls|
  {
    if impls != [] {
      StateAfterCleared(ImplState(u, impls[0]), impls[1..]);
    }
  }

  /** Every query of an invoke is asked at `R` of the call's address, and all
      of them carry the call's place and sink name. */
  predicate AskedAtCall(ctx: Ctx, q: Query, className: string, methodName: string, pc: string, refString: string) {
    q.query.And? && |q.query.args| == 2 && q.query.args[0].App? && q.query.args[0].rel == R(ctx.c, ctx.m, ctx.codeAddress)
    && q.className == className && q.methodName == methodName && q.pc == pc
    && q.sinkName == refString
  }

  /** Every query of a list is asked at `R` of the call's address. */
  predicate AllAskedAtCall(ctx: Ctx, qs: seq<Query>, className: string, methodName: string, pc: string, refString: string) {
    forall t :: 0 <= t < |qs| ==> AskedAtCall(ctx, qs[t], className, methodName, pc, refString)
  }

  lemma AllAskedAppend(ctx: Ctx, a: seq<Query>, b: seq<Query>, className: string, methodName: string, pc: string,
                       refString: string)
    requires AllAskedAtCall(ctx, a, className, methodName, pc, refString)
    requires AllAskedAtCall(ctx, b, className, methodName, pc, refString)
    ensures AllAskedAtCall(ctx, a + b, className, methodName, pc, refString)
  {
    forall t | 0 <= t < |a + b| ensures AskedAtCall(ctx, (a + b)[t], className, methodName, pc, refString) {
      if t >= |a| {
        assert (a + b)[t] == b[t - |a|];
      }
    }
  }

  lemma {:induction false} InvokeQueriesAtCall(ctx: Ctx, u: Updates, ins: FiveRegs, impls: seq<Impl>, className: string,
                                               methodName: string, pc: string, refString: string, verbose: bool)
    ensures AllAskedAtCall(ctx, InvokeQueries(ctx, u, ins, impls, className, methodName, pc, refString, verbose),
                           className, methodName, pc, refString)
    decreases |impls|
  {
    if impls != [] {
      var u' := ImplState(u, impls[0]);
      InvokeQueriesAtCall(ctx, u', ins, impls[1..], className, methodName, pc, refString, verbose);
      ImplQueriesAtCall(ctx, u, ins, impls[0], className, methodName, pc, refString, verbose);
      AllAskedAppend(ctx, ImplQueries(ctx, u, ins, impls[0], className, methodName, pc, refString, verbose),
                     InvokeQueries(ctx, u', ins, impls[1..], className, methodName, pc, refString, verbose),
                     className, methodName, pc, refString);
    }
  }

  lemma UnresolvedQueriesAtCall(ctx: Ctx, u: Updates, ins: FiveRegs, sink: bool, className: string,
                                methodName: string, pc: string, refString: string, verbose: bool)
    ensures AllAskedAtCall(ctx, UnresolvedQueries(ctx, u, ins, sink, className, methodName, pc, refString, verbose),
                           className, methodName, pc, refString)
  {
    var impl := Impl("", "", 0, 0, [], sink, false);
    ImplQueriesAtCall(ctx, u, ins, impl, className, methodName, pc, refString, verbose);
    assert UnresolvedQueries(ctx, u, ins, sink, className, methodName, pc, refString, verbose)
        == ImplQueries(ctx, u, ins, impl, className, methodName, pc, refString, verbose);
  }

  lemma ImplQueriesAtCall(ctx: Ctx, u: Updates, ins: FiveRegs, impl: Impl, className: string,
                          methodName: string, pc: string, refString: string, verbose: bool)
    ensures AllAskedAtCall(ctx, ImplQueries(ctx, u, ins, impl, className, methodName, pc, refString, verbose),
                           className, methodName, pc, refString)
  {
    var qs := ImplQueries(ctx, u, ins, impl, className, methodName, pc, refString, verbose);
    var p := RAt(ctx, ctx.codeAddress, u);
    forall t | 0 <= t < |qs| ensures AskedAtCall(ctx, qs[t], className, methodName, pc, refString) {
      var rs := Args(ins);
      assert qs[t] == LeakQuery(p, rs[|rs| - 1 - t], H, className, methodName, pc, refString, verbose);
    }
  }

  /** All sink queries of one invoke are merged into a single query. */
  lemma InvokeQueriesMerge(ctx: Ctx, u: Updates, ins: FiveRegs, impls: seq<Impl>, className: string,
                           methodName: string, pc: string, refString: string, verbose: bool)
    ensures var qs := InvokeQueries(ctx, u, ins, impls, className, methodName, pc, refString, verbose);
      qs != [] ==> Flushed(Feed(QueryState([], None), qs)) == [MergeRun(qs)]
  {
    var qs := InvokeQueries(ctx, u, ins, impls, className, methodName, pc, refString, verbose);
    if qs != [] {
      InvokeQueriesAtCall(ctx, u, ins, impls, className, methodName, pc, refString, verbose);
      assert AskedAtCall(ctx, qs[0], className, methodName, pc, refString);
      forall t | 0 <= t < |qs| ensures SameKey(qs[0], qs[t]) {
        assert AskedAtCall(ctx, qs[t], className, methodName, pc, refString);
      }
      QueryCompaction(qs);
      SameKeyRunMerges(qs);
    }
  }

  /** The call clause's head is `R` at address 0 of the implementation's
      method; register slot i of the callee holds the entry maps' four
      components of register i, 0 and false where they have none. */
  lemma CallHeadRegister(ctx: Ctx, e: Updates, impl: Impl, i: int)
    requires 0 <= i < impl.numArg + impl.numReg + 1
    ensures CallHead(ctx, e, impl).rel == R(impl.classLabel, impl.nameLabel, 0)
    ensures |CallHead(ctx, e, impl).args| == 4 * (impl.numArg + impl.numReg + 1) + 5 * ctx.lhSize
    ensures RegArgsAre(CallHead(ctx, e, impl).args, impl.numArg + impl.numReg + 1, i, ArgOr(e.v, i, Bv(0, ctx.width)),
                       ArgOr(e.h, i, False), ArgOr(e.l, i, False), ArgOr(e.g, i, False))
  {
    var n, w := impl.numArg + impl.numReg + 1, ctx.width;
    CallHeadArgs(ctx, e, impl);
    ZeroRegSlots(e, n, w, ctx.lhSize, i);
    assert CallHead(ctx, e, impl).args == FsArgs(e, n, ctx.lhSize, Zeros(w));
  }

  lemma CallHeadArgs(ctx: Ctx, e: Updates, impl: Impl)
    ensures CallHead(ctx, e, impl)
         == App(R(impl.classLabel, impl.nameLabel, 0), FsArgs(e, impl.numArg + impl.numReg + 1, ctx.lhSize, Zeros(ctx.width)))
  {
  }

  /** A register slot of an argument vector with 0-and-false defaults. */
  lemma ZeroRegSlots(e: Updates, size: nat, w: int, lh: nat, i: int)
    requires 0 <= i < size
    ensures var a := FsArgs(e, size, lh, Zeros(w));
      |a| == 4 * size + 5 * lh
      && RegArgsAre(a, size, i, ArgOr(e.v, i, Bv(0, w)), ArgOr(e.h, i, False), ArgOr(e.l, i, False), ArgOr(e.g, i, False))
  {
    FilledRegArgs(e, size, lh, Zeros(w), i, ArgOr(e.v, i, Bv(0, w)), ArgOr(e.h, i, False), ArgOr(e.l, i, False), ArgOr(e.g, i, False));
  }

  /** The register map of one component. */
  function RegMap(e: Updates, kind: VarKind): map<int, Expr> {
    match kind
    case V => e.v
    case H => e.h
    case L => e.l
    case _ => e.g
  }

  /** The entry maps put argument k of the call in the callee's local
      register numReg-numArg+k and in its parameter register numReg+1+k,
      in each of the four components. */
  lemma EntryArg(u: Updates, ins: FiveRegs, impl: Impl, k: int, kind: VarKind, d: Expr, i: int)
    requires 1 <= impl.numArg <= 5 && 0 <= k < impl.numArg && kind in {V, H, L, G}
    requires i == impl.numReg - impl.numArg + k || i == impl.numReg + 1 + k
    ensures ArgOr(RegMap(EntryMaps(u, ins, impl), kind), i, d) == RegVar(kind, FiveArg(ins, k))
  {
    UpdateRegisterFiveMeaning(impl.numReg, impl.numArg, kind, ins, i);
  }

  /** Every other register of the entry maps is empty, so the callee starts
      it as 0 and false. */
  lemma EntryOther(u: Updates, ins: FiveRegs, impl: Impl, i: int, kind: VarKind, d: Expr)
    requires 1 <= impl.numArg <= 5 ==>
      !(impl.numReg - impl.numArg <= i < impl.numReg) && !(impl.numReg + 1 <= i < impl.numReg + 1 + impl.numArg)
    requires kind in {V, H, L, G}
    ensures ArgOr(RegMap(EntryMaps(u, ins, impl), kind), i, d) == d
  {
    UpdateRegisterFiveMeaning(impl.numReg, impl.numArg, kind, ins, i);
  }

  /** The entry maps pass the caller's local heap on unchanged, and the
      callee's local-heap slots are those of the entry maps, 0 and false
      where they have none. */
  lemma CallHeadLocalHeap(ctx: Ctx, u: Updates, ins: FiveRegs, impl: Impl, j: int)
    requires 0 <= j < ctx.lhSize
    ensures EntryMaps(u, ins, impl).lh == u.lh
    ensures var head, n, m := CallHead(ctx, EntryMaps(u, ins, impl), impl), impl.numArg + impl.numReg + 1, ctx.lhSize;
      |head.args| == 4 * n + 5 * m
      && HeapSlotsAre(head.args, n, m, j, ArgOr(u.lh.v, j, Bv(0, ctx.width)), ArgOr(u.lh.h, j, False),
                      ArgOr(u.lh.l, j, False), ArgOr(u.lh.g, j, False), ArgOr(u.lh.f, j, False))
  {
    var e := EntryMaps(u, ins, impl);
    assert e.lh == u.lh;
    ZeroHeapSlots(e, impl.numArg + impl.numReg + 1, ctx.width, ctx.lhSize, j);
  }

  /** A local-heap slot of an argument vector with 0-and-false defaults. */
  lemma ZeroHeapSlots(e: Updates, size: nat, w: int, lh: nat, j: int)
    requires 0 <= j < lh
    ensures var a := FsArgs(e, size, lh, Zeros(w));
      |a| == 4 * size + 5 * lh
      && HeapSlotsAre(a, size, lh, j, ArgOr(e.lh.v, j, Bv(0, w)), ArgOr(e.lh.h, j, False),
                      ArgOr(e.lh.l, j, False), ArgOr(e.lh.g, j, False), ArgOr(e.lh.f, j, False))
  {
    FilledHeapSlots(e, size, lh, Zeros(w), j, ArgOr(e.lh.v, j, Bv(0, w)), ArgOr(e.lh.h, j, False),
                    ArgOr(e.lh.l, j, False), ArgOr(e.lh.g, j, False), ArgOr(e.lh.f, j, False));
  }

  /** The five local-heap arguments of slot j. */
  function HeapSlotsAre(a: seq<Expr>, size: nat, lhSize: nat, j: int, ev: Expr, eh: Expr, el: Expr, eg: Expr, ef: Expr): bool
    requires 0 <= j < lhSize && |a| == 4 * size + 5 * lhSize
  {
    a[4 * size + j] == ev && a[4 * size + lhSize + j] == eh && a[4 * size + 2 * lhSize + j] == el
    && a[4 * size + 3 * lhSize + j] == eg && a[4 * size + 4 * lhSize + j] == ef
  }

  /** The local-heap arguments are the map entries or their defaults. */
  lemma FilledHeapSlots(u: Updates, size: nat, lhSize: nat, d: Defaults, j: int,
                        ev: Expr, eh: Expr, el: Expr, eg: Expr, ef: Expr)
    requires 0 <= j < lhSize
    requires ArgOr(u.lh.v, j, Default(d, LHV, j)) == ev && ArgOr(u.lh.h, j, Default(d, LHH, j)) == eh
    requires ArgOr(u.lh.l, j, Default(d, LHL, j)) == el && ArgOr(u.lh.g, j, Default(d, LHG, j)) == eg
    requires ArgOr(u.lh.f, j, Default(d, LHF, j)) == ef
    ensures var a := FsArgs(u, size, lhSize, d);
      |a| == 4 * size + 5 * lhSize && HeapSlotsAre(a, size, lhSize, j, ev, eh, el, eg, ef)
  {
    FsArgsHeap(u, size, lhSize, d, j);
  }

  /** The callee's result variable of one component. */
  function ResultVar(kind: VarKind): Expr {
    match kind
    case V => NamedVar(Rez)
    case H => NamedVar(Hrez)
    case L => NamedVar(Lrez)
    case _ => NamedVar(Grez)
  }

  /** The summary maps show argument k of the callee as caller register k of
      the call, and slot numArg as the callee's result. */
  lemma SummarySlot(ctx: Ctx, ins: FiveRegs, impl: Impl, kind: VarKind, k: int, d: Expr)
    requires impl.numArg <= 5 && 0 <= k <= impl.numArg && kind in {V, H, L, G}
    ensures ArgOr(RegMap(SummaryMaps(ctx, ins, impl), kind), k, d)
         == if k < impl.numArg then RegVar(kind, FiveArg(ins, k)) else ResultVar(kind)
  {
    UpdateResultFiveMeaning(impl.numArg, kind, ins, k);
  }

  /** The register blocks of `RES` over the maps `s`. */
  lemma ResRegisters(c: string, m: string, s: Updates, numArg: nat, lhSize: nat, k: int)
    requires 0 <= k <= numArg
    ensures var head, n := FsResPred(c, m, s, numArg, lhSize), numArg + 1;
      head.rel == Res(c, m) && |head.args| == 4 * n + 5 * lhSize
      && RegArgsAre(head.args, n, k, ArgOr(RegMap(s, V), k, RegVar(V, k)), ArgOr(RegMap(s, H), k, RegVar(H, k)),
                    ArgOr(RegMap(s, L), k, RegVar(L, k)), ArgOr(RegMap(s, G), k, RegVar(G, k)))
  {
    ResArgs(c, m, s, numArg, lhSize, k);
  }

  /** The argument of the summary at slot k of each component: caller
      register k of the call below numArg, the callee's result at numArg. */
  function SummaryArg(ins: FiveRegs, impl: Impl, kind: VarKind, k: int): Expr
    requires 0 <= k <= impl.numArg <= 5
  {
    if k < impl.numArg then RegVar(kind, FiveArg(ins, k)) else ResultVar(kind)
  }

  /** The summary read on return is the called method's in the
      implementation's class: its argument k is caller register k of the
      call and its last slot the callee's result. As written, the summary
      is labelled with the called method's name hash, not the name of the
      method entered: for a thread's start() the clause enters run() but
      reads the summary of start(). */
  lemma SummaryArguments(ctx: Ctx, ins: FiveRegs, impl: Impl, refLabel: string, k: int)
    requires impl.numArg <= 5 && 0 <= k <= impl.numArg
    ensures var s, n := Summary(ctx, ins, impl, refLabel), impl.numArg + 1;
      s.rel == Res(impl.classLabel, refLabel)
      && |s.args| == 4 * n + 5 * ctx.lhSize
      && RegArgsAre(s.args, n, k, SummaryArg(ins, impl, V, k), SummaryArg(ins, impl, H, k),
                    SummaryArg(ins, impl, L, k), SummaryArg(ins, impl, G, k))
  {
    var sm := SummaryMaps(ctx, ins, impl);
    ResRegisters(impl.classLabel, refLabel, sm, impl.numArg, ctx.lhSize, k);
    SummarySlot(ctx, ins, impl, V, k, RegVar(V, k));
    SummarySlot(ctx, ins, impl, H, k, RegVar(H, k));
    SummarySlot(ctx, ins, impl, L, k, RegVar(L, k));
    SummarySlot(ctx, ins, impl, G, k, RegVar(G, k));
  }

  /** The register blocks of `R` at pc over the maps `a`. */
  lemma RAtRegisters(ctx: Ctx, pc: int, a: Updates, i: int)
    requires 0 <= i < Regs(ctx)
    ensures var head, n := RAt(ctx, pc, a), Regs(ctx);
      head.rel == R(ctx.c, ctx.m, pc) && |head.args| == 4 * n + 5 * ctx.lhSize
      && RegArgsAre(head.args, n, i, ArgOr(RegMap(a, V), i, RegVar(V, i)), ArgOr(RegMap(a, H), i, RegVar(H, i)),
                    ArgOr(RegMap(a, L), i, RegVar(L, i)), ArgOr(RegMap(a, G), i, RegVar(G, i)))
  {
    RAtArgs(ctx, pc, a);
    FilledRegArgs(a, Regs(ctx), ctx.lhSize, Variables, i, ArgOr(RegMap(a, V), i, RegVar(V, i)), ArgOr(RegMap(a, H), i, RegVar(H, i)),
                  ArgOr(RegMap(a, L), i, RegVar(L, i)), ArgOr(RegMap(a, G), i, RegVar(G, i)));
  }

  /** Register i of one component after the call: the callee's result for
      the result register when the call returns a value (for H, the
      return label), otherwise the register's own variable, and for G the
      `liftLi` label. */
  function Resumed(env: Env, ctx: Ctx, impl: Impl, callReturns: bool, kind: VarKind, i: int): Expr {
    if callReturns && i == ctx.numRegLoc then (if kind == H then ReturnLabel(impl) else ResultVar(kind))
    else if kind == G then LiftLiGen(env, ctx.width)(i)
    else RegVar(kind, i)
  }

  lemma AfterSlot(env: Env, ctx: Ctx, u: Updates, impl: Impl, callReturns: bool, kind: VarKind, i: int)
    requires 0 <= i < Regs(ctx) && kind in {V, H, L, G}
    ensures ArgOr(RegMap(AfterCall(env, ctx, u, impl, callReturns), kind), i, RegVar(kind, i))
         == Resumed(env, ctx, impl, callReturns, kind, i)
  {
    OverrideGet(map[], 0, Regs(ctx), LiftLiGen(env, ctx.width), i);
  }

  /** After the call the caller's registers keep their value, high and local
      components; G is lifted by `liftLi`; when the call returns a value the
      result register numRegLoc takes the callee's result. */
  lemma ResumeRegisters(env: Env, ctx: Ctx, u: Updates, ins: FiveRegs, impl: Impl, refLabel: string,
                        callReturns: bool, inst: int, i: int)
    requires 0 <= i < Regs(ctx)
    ensures var head, n := ResumeRule(env, ctx, u, ins, impl, refLabel, callReturns, inst).head, Regs(ctx);
      head.rel == R(ctx.c, ctx.m, ctx.nextCode) && |head.args| == 4 * n + 5 * ctx.lhSize
      && RegArgsAre(head.args, n, i, Resumed(env, ctx, impl, callReturns, V, i), Resumed(env, ctx, impl, callReturns, H, i),
                    Resumed(env, ctx, impl, callReturns, L, i), Resumed(env, ctx, impl, callReturns, G, i))
  {
    RAtRegisters(ctx, ctx.nextCode, AfterCall(env, ctx, u, impl, callReturns), i);
    AfterSlot(env, ctx, u, impl, callReturns, V, i);
    AfterSlot(env, ctx, u, impl, callReturns, H, i);
    AfterSlot(env, ctx, u, impl, callReturns, L, i);
    AfterSlot(env, ctx, u, impl, callReturns, G, i);
  }

  /** The returned value is secret exactly when the implementation is a source
      or the callee's result label is set. */
  lemma ResultSecretIffSource(env: Env, ctx: Ctx, u: Updates, ins: FiveRegs, impl: Impl, refLabel: string, inst: int)
    ensures var head, n := ResumeRule(env, ctx, u, ins, impl, refLabel, true, inst).head, Regs(ctx);
      (head.args[n + ctx.numRegLoc] == True <==> impl.source)
      && (!impl.source ==> head.args[n + ctx.numRegLoc] == NamedVar(Hrez))
  {
    ResumeRegisters(env, ctx, u, ins, impl, refLabel, true, inst, ctx.numRegLoc);
  }

  /** The callee's local heap with the filter flags joined with `f`. */
  function JoinedHeap(n: nat, f: map<int, Expr>): HeapMaps {
    var callee := CalleeHeap(n);
    callee.(f := Override(map[], 0, n, JoinGen(f, callee.f)))
  }

  /** Slot j of the joined heap: the callee-heap variables, and the join of
      `f` and the callee's flag. */
  lemma JoinedHeapSlots(ctx: Ctx, pc: int, a: Updates, f: map<int, Expr>, j: int)
    requires 0 <= j < ctx.lhSize && a.lh == JoinedHeap(ctx.lhSize, f)
    ensures var head, n, m := RAt(ctx, pc, a), Regs(ctx), ctx.lhSize;
      |head.args| == 4 * n + 5 * m
      && HeapSlotsAre(head.args, n, m, j, RegVar(LHCV, j), RegVar(LHCH, j), RegVar(LHCL, j), RegVar(LHCG, j),
                      Or([Get(f, j), RegVar(LHCF, j)]))
  {
    var n := ctx.lhSize;
    CalleeHeapArgs(n, j);
    JoinedFlag(n, f, j);
    RAtArgs(ctx, pc, a);
    FilledHeapSlots(a, Regs(ctx), n, Variables, j, RegVar(LHCV, j), RegVar(LHCH, j), RegVar(LHCL, j), RegVar(LHCG, j),
                    Or([Get(f, j), RegVar(LHCF, j)]));
  }

  /** Slot j of the callee heap holds the callee-heap variables of slot j. */
  lemma CalleeHeapGet(n: nat, j: int)
    requires 0 <= j < n
    ensures var h := CalleeHeap(n);
      Get(h.v, j) == RegVar(LHCV, j) && Get(h.h, j) == RegVar(LHCH, j) && Get(h.l, j) == RegVar(LHCL, j)
      && Get(h.g, j) == RegVar(LHCG, j) && Get(h.f, j) == RegVar(LHCF, j)
  {
    OverrideGet(map[], 0, n, VarGen(LHCV), j);
    OverrideGet(map[], 0, n, VarGen(LHCH), j);
    OverrideGet(map[], 0, n, VarGen(LHCL), j);
    OverrideGet(map[], 0, n, VarGen(LHCG), j);
    OverrideGet(map[], 0, n, VarGen(LHCF), j);
  }

  /** The same, as the predicate builder reads the slots. */
  lemma CalleeHeapArgs(n: nat, j: int)
    requires 0 <= j < n
    ensures var h := CalleeHeap(n);
      ArgOr(h.v, j, RegVar(LHV, j)) == RegVar(LHCV, j) && ArgOr(h.h, j, RegVar(LHH, j)) == RegVar(LHCH, j)
      && ArgOr(h.l, j, RegVar(LHL, j)) == RegVar(LHCL, j) && ArgOr(h.g, j, RegVar(LHG, j)) == RegVar(LHCG, j)
      && ArgOr(h.f, j, RegVar(LHF, j)) == RegVar(LHCF, j)
  {
    CalleeHeapGet(n, j);
  }

  /** The joined filter flag of slot j. */
  lemma JoinedFlag(n: nat, f: map<int, Expr>, j: int)
    requires 0 <= j < n
    ensures ArgOr(JoinedHeap(n, f).f, j, RegVar(LHF, j)) == Or([Get(f, j), RegVar(LHCF, j)])
  {
    var callee := CalleeHeap(n);
    CalleeHeapGet(n, j);
    OverrideGet(map[], 0, n, JoinGen(f, callee.f), j);
  }

  /** After the call the local heap is the callee's, and each filter flag is
      the join of the caller's update of the slot and the callee's flag. */
  lemma ResumeHeap(env: Env, ctx: Ctx, u: Updates, ins: FiveRegs, impl: Impl, refLabel: string,
                   callReturns: bool, inst: int, j: int)
    requires 0 <= j < ctx.lhSize
    ensures var head, n, m := ResumeRule(env, ctx, u, ins, impl, refLabel, callReturns, inst).head, Regs(ctx), ctx.lhSize;
      |head.args| == 4 * n + 5 * m
      && HeapSlotsAre(head.args, n, m, j, RegVar(LHCV, j), RegVar(LHCH, j), RegVar(LHCL, j), RegVar(LHCG, j),
                      Or([Get(u.lh.f, j), RegVar(LHCF, j)]))
  {
    var a := AfterCall(env, ctx, u, impl, callReturns);
    assert a.lh == JoinedHeap(ctx.lhSize, u.lh.f);
    JoinedHeapSlots(ctx, ctx.nextCode, a, u.lh.f, j);
  }

  /** The summary's local heap is the callee's: slot j shows the callee-heap
      variables of slot j. */
  lemma SummaryHeap(ctx: Ctx, ins: FiveRegs, impl: Impl, refLabel: string, j: int)
    requires 0 <= j < ctx.lhSize
    ensures var s, n, m := Summary(ctx, ins, impl, refLabel), impl.numArg + 1, ctx.lhSize;
      |s.args| == 4 * n + 5 * m
      && HeapSlotsAre(s.args, n, m, j, RegVar(LHCV, j), RegVar(LHCH, j), RegVar(LHCL, j), RegVar(LHCG, j), RegVar(LHCF, j))
  {
    var sm := SummaryMaps(ctx, ins, impl);
    assert sm.lh == CalleeHeap(ctx.lhSize);
    CalleeHeapArgs(ctx.lhSize, j);
    FilledHeapSlots(sm, impl.numArg + 1, ctx.lhSize, Variables, j, RegVar(LHCV, j), RegVar(LHCH, j), RegVar(LHCL, j),
                    RegVar(LHCG, j), RegVar(LHCF, j));
  }
}
