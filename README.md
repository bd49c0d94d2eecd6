# HornDroid core in Dafny

HornDroid is a static taint analysis for Android apps. It compiles the
Dalvik bytecode of an app into Horn clauses over bit-vectors and Booleans
and asks an SMT solver whether a secret value (one produced by a source
method) can reach a sink method. This project models the part of HornDroid
that builds those clauses in its flow-sensitive mode, and proves properties
of that model:

- **Clause emission per instruction** (`FSInstructionAnalysis`). The abstract
  state at a program point is the relation `R_c_m_pc`. Its arguments are four
  blocks over the method's registers and five blocks over the local heap. The
  register blocks are the value V, the high (secret) label H, the local-pointer
  flag L and the global-pointer flag G. The local-heap blocks are V, H, L, G
  and the fresh flag F. Each opcode handler writes overrides into nine update
  maps (`regUpV` … `regUpLHF`) and appends the implication from `R` here to
  `R` at the successor. The maps are a class's fields, updated in place
  (module `FsAnalysis`). What each handler adds is specified as functions of
  the old maps (modules `FsInstr`, `FsHeap`, `FsInvoke`, `Calls`), and
  lemmas state what the clauses mean.
- **Analysis layout, hierarchy, rules and pool** (`Analysis`):
  - the local-heap layout that gives every allocation site a number and a
    block of slots (`Allocation`, `Layout`, `AnalysisCore`);
  - superclass-chain lookups (`Hierarchy`);
  - the reachability, filter and entry rules (`HeapRules`);
  - the work list of class/method pairs (`Pool`).
- **The solver front end** (`Z3Engine`): the relation names and sorts, the
  argument layout of `rPred`/`resPred`, and the compaction of consecutive
  queries about one program point into one disjunction (`Z3`, `Queries`).
  The flow-sensitive engine (`FsEngine`) uses the same argument rule over
  nine blocks.
- **`StringPair`**: `equals` and `hashCode` (`StringPairs`), with Java's
  32-bit `String.hashCode` (`JavaInt`).

Solver expressions are a datatype (`Exprs.Expr`). A Java `null` stored in or
read from an update map is the constructor `Null`. The predicate builders
read a missing or null entry as the slot's own variable. `Guards` gives the
expressions a meaning over a valuation, which the `…Meaning` lemmas use.

Several behaviours of the code are modelled as written and stated as lemmas,
not corrected:
- `bvult` builds an unsigned less-or-equal and `bvsub` an arithmetic shift
  (`Z3.Bvult`, `Z3.Bvsub`);
- the switch fall-through guard is a conjunction
  (`FsInstr.FallThroughAlwaysTaken`);
- with the `FSEngine` comparison builders read by their names, `if-ltz` never
  jumps and `if-gez` always does, because the comparisons are unsigned
  (`FsInstr.SignTestsAreConstant`); if `FSEngine.bvult` builds the
  less-or-equal that `Z3Engine.bvult` builds, `if-ltz` jumps exactly when A
  is 0 instead (`FsInstr.IfGuardZ3ReadingMeaning`);
- the new-object initialisation loop steps its index twice
  (`FsHeap.InitObjectSlots`);
- new arrays are global (`FsHeap.NewArrayIsGlobal`), and, with the builders
  read by name, only cell 0 gets its initial fact
  (`FsHeap.NewArrayIndexGuard`); under the `Z3Engine` reading of `bvult`
  cell 0 gets it whatever the length (`FsHeap.NewArrayIndexGuardZ3Reading`);
- `iget`/`iput` and `sget` read registers from maps that were just cleared or
  overridden (`FsHeap.IGetLocalGuardsReadNull`,
  `FsHeap.SGetReadsOverriddenState`);
- the range form of `highReg` drops the spread label
  (`Calls.HighRegRangeAsWritten`).

## Model

| member | source | states |
|---|---|---|
| `StringPairs.NewStringPair` | src/main/java/com/horndroid/util/StringPair.java:31-34 | the constructor keeps both strings unchanged |
| `StringPairs.HashCode` | src/main/java/com/horndroid/util/StringPair.java:37-40 | the hash is a Java `int` equal to `17*hash(st1) + 37*hash(st2)` wrapped to 32 bits |
| `StringPairs.Equals` | src/main/java/com/horndroid/util/StringPair.java:43-50 | `equals` holds iff the argument is a `StringPair` whose two strings equal this pair's; false for any other object |
| `StringPairs.EqualsReflexive` | src/main/java/com/horndroid/util/StringPair.java:43-50 | every pair equals itself |
| `StringPairs.EqualsSymmetric` | src/main/java/com/horndroid/util/StringPair.java:43-50 | `p.equals(q)` and `q.equals(p)` agree |
| `StringPairs.EqualsTransitive` | src/main/java/com/horndroid/util/StringPair.java:43-50 | equality is transitive |
| `StringPairs.EqualsImpliesSameHash` | src/main/java/com/horndroid/util/StringPair.java:37-50 | equal pairs have equal `hashCode` |
| `StringPairs.SameHashNotEqual` | src/main/java/com/horndroid/util/StringPair.java:37-40 | the converse fails: ("Aa","x") and ("BB","x") share a hash but are not equal |
| `StringPairs.ConstructorEquals` | src/main/java/com/horndroid/util/StringPair.java:31-50 | two constructed pairs are equal iff their first and second strings are equal |
| `Z3.Domains` | src/z3/Z3Engine.java:564-566 | a relation over `size` registers has `3*size` sorts: the first `size` are bit-vectors, the remaining `2*size` Boolean |
| `Z3.RNameInjective` | src/z3/Z3Engine.java:563 | within one method, two program points get the same relation name iff their program counters are equal |
| `Z3.RNameNotResName` | src/z3/Z3Engine.java:563-626 | a program-point name `R_…` never equals a summary name `RES_…` |
| `Z3.Bvult` | src/z3/Z3Engine.java:358-366 | as written, `bvult` builds an unsigned less-or-equal, not a less-than |
| `Z3.Bvsub` | src/z3/Z3Engine.java:398-406 | as written, `bvsub` builds an arithmetic right shift, not a subtraction |
| `Z3.FillArgs` | src/z3/Z3Engine.java:585-590 | position i, size+i and 2*size+i hold the entries of the three update maps at i, or the defaults where an entry is missing or null |
| `Z3.Z3Engine.constructor` | src/z3/Z3Engine.java:40-85 | starts with no queries, declares H, HI, I and S in that order and holds the single parent/result heap rule |
| `Z3.Z3Engine.AddRule` | src/z3/Z3Engine.java:111-120 | appends the rule to `mRules`; nothing is removed or reordered |
| `Z3.Z3Engine.DeclareRel` | src/z3/Z3Engine.java:529-537 | appends the declaration to `mFuncs`; nothing is removed or reordered |
| `Z3.Z3Engine.DeclareRelByName` | src/z3/Z3Engine.java:539-547 | appends one declaration with the given name, domain and range |
| `Z3.Z3Engine.RPredDef` | src/z3/Z3Engine.java:558-577 | declares `"R_"+c+"_"+m+"_"+pc` with `size` bit-vector sorts then `2*size` Boolean sorts, and appends it to `mFuncs` |
| `Z3.Z3Engine.RPred` | src/z3/Z3Engine.java:579-597 | applies `R_c_m_pc` to `3*(numArg+numReg+1)` arguments: positions i, size+i, 2*size+i hold `rUp[i]`, `rUpL[i]`, `rUpB[i]` or `V(i)`, `L(i)`, `B(i)` where an entry is missing |
| `Z3.Z3Engine.RInvokePred` | src/z3/Z3Engine.java:600-619 | the same layout as `rPred`, but missing entries default to bit-vector 0, false and false |
| `Z3.Z3Engine.ResPredDef` | src/z3/Z3Engine.java:621-641 | declares `"RES_"+c+"_"+m` with the bit-vector-then-Boolean sorts and appends it to `mFuncs` |
| `Z3.Z3Engine.ResPred` | src/z3/Z3Engine.java:643-664 | applies `RES_c_m` to `numArg+1` slots with `rPred`'s default rule |
| `Z3.Z3Engine.AddQuery` | src/z3/Z3Engine.java:448-472 | a query with the current query's class, method, pc and sink replaces it with their OR and leaves `mQueries` alone; otherwise the current query, if any, is appended to `mQueries` and the new query becomes current |
| `Z3.Z3Engine.FlushQueries` | src/z3/Z3Engine.java:474-476 | the cached current query, if any, is appended to `mQueries` |
| `Queries.RunLength` | src/z3/Z3Engine.java:451-457 | the leading run of same-key queries has length k ≥ 1, all its members share the first query's key, and the query after it does not |
| `Queries.Compact` | src/z3/Z3Engine.java:448-476 | the reference compaction is no longer than its input, empty only for an empty input, starts with the first query's key, and no two neighbours share a key |
| `Queries.QueryCompaction` | src/z3/Z3Engine.java:448-476 | feeding any sequence of queries to `addQuery` and flushing yields exactly one merged query per maximal run of consecutive same-key queries |
| `Queries.SameKeyRunMerges` | src/z3/Z3Engine.java:451-466 | queries that all share one key end as a single query whose formula is their left-nested OR |
| `JavaInt.StringHashIsPoly` | src/main/java/com/horndroid/util/StringPair.java:39 | the incremental `String.hashCode` equals the 31-polynomial of the characters reduced once modulo 2^32 |
| `JavaInt.HashCollision` | src/z3/Z3Engine.java:72 | `String.hashCode` is not injective: "Aa" and "BB" hash alike |
| `JavaInt.IntToStringRoundTrip` | src/z3/Z3Engine.java:563 | `Integer.toString` is read back exactly, so distinct numbers give distinct names |
| `Allocation.KeptListMembers` | src/main/java/com/horndroid/analysis/Analysis.java:469-484 | a site gets a number exactly when it is a `new-instance` site and, with `sensIfHasSink`, its method contains a sink |
| `Allocation.AllocateCounters` | src/main/java/com/horndroid/analysis/Analysis.java:462-506 | after the loop `localHeapNumberEntries` is the number of kept sites and `localHeapSize` the sum of their field counts plus one each |
| `Allocation.AllocateReverse` | src/main/java/com/horndroid/analysis/Analysis.java:497 | the reverse table maps number k to the k-th kept site, even when site hashes collide |
| `Allocation.AllocateReverseKeys` | src/main/java/com/horndroid/analysis/Analysis.java:497 | the reverse table gains exactly the numbers of the kept sites; other numbers keep their entries |
| `Allocation.AllocateSiteKeys` | src/main/java/com/horndroid/analysis/Analysis.java:492-500 | each per-site table gains exactly the hashes of the kept sites, and keeps its other entries |
| `Allocation.AllocateHasSite` | src/main/java/com/horndroid/analysis/Analysis.java:492-500 | every kept site has an entry in every per-site table |
| `Allocation.AllocateEntry` | src/main/java/com/horndroid/analysis/Analysis.java:490-501 | with distinct site hashes, the k-th kept site has number k, the reverse table inverts the numbering, its size is its class's field count, its offset the span of the sites before it, and its class and pc are recorded |
| `Allocation.AllocateSizeAt` | src/main/java/com/horndroid/analysis/Analysis.java:497-498 | number k names the k-th kept site, whose size is its class's field count |
| `Allocation.RecordOther` | src/main/java/com/horndroid/analysis/Analysis.java:492-500 | recording one site leaves every other site's entries unchanged |
| `Allocation.BlocksDisjoint` | src/main/java/com/horndroid/analysis/Analysis.java:498-501 | with distinct site hashes, the blocks [offset, offset + size] of two sites do not overlap, in numbering order |
| `Allocation.BlockInHeap` | src/main/java/com/horndroid/analysis/Analysis.java:498-504 | with distinct site hashes, every site's block lies inside [0, localHeapSize) |
| `Layout.FieldsMapKeys` | src/main/java/com/horndroid/analysis/Analysis.java:552-567 | the keys of the field map are exactly the hashes of the class's field names |
| `Layout.FieldsMapLastWins` | src/main/java/com/horndroid/analysis/Analysis.java:553-566 | the entry of a name hash says whether the last field with that hash has a one-letter primitive name |
| `Layout.ClassFields` | src/main/java/com/horndroid/analysis/Analysis.java:544-590 | none for an unknown class, a non-app class or a class without fields; otherwise the field map, never empty |
| `Layout.FieldsMapEmpty` | src/main/java/com/horndroid/analysis/Analysis.java:588 | the field map is empty exactly when the class has no fields, which `getClassFields` turns into null |
| `Layout.SortedKeys` | src/main/java/com/horndroid/analysis/Analysis.java:486-489 | lists a finite set's elements once each, in strictly increasing order, as a `TreeSet` iterates them |
| `Layout.RankIsCountOfSmaller` | src/main/java/com/horndroid/analysis/Analysis.java:513-522 | an element's position in the ascending order is the number of smaller elements |
| `Hierarchy.Chain` | src/main/java/com/horndroid/analysis/Analysis.java:257-269 | the chain starts at the class, every link is a superclass edge and only the last class lacks an app superclass |
| `Hierarchy.ChainLink` | src/main/java/com/horndroid/analysis/Analysis.java:264-266 | entry k+1 of the chain is the superclass of entry k |
| `Hierarchy.StaticFieldLookupFrom` | src/main/java/com/horndroid/analysis/Analysis.java:257-269 | the result is the type hash of the first class on the chain that declares the field, none when no class does |
| `Hierarchy.StaticFieldLookupFound` | src/main/java/com/horndroid/analysis/Analysis.java:257-269 | the lookup succeeds exactly when some class on the chain declares the field |
| `Hierarchy.StaticFieldLookup` | src/main/java/com/horndroid/analysis/Analysis.java:274-280 | none for an unknown class hash, otherwise the lookup from that class |
| `Hierarchy.SuperIsInOverapproxMeaning` | src/main/java/com/horndroid/analysis/Analysis.java:776-787 | the walk up the chain answers true exactly when some class on the chain has its type hash in the over-approximation set |
| `Hierarchy.TestOverapprox` | src/main/java/com/horndroid/analysis/Analysis.java:794-808 | true exactly when the class, an ancestor or a direct subclass has its type hash in the set |
| `Hierarchy.SuperIsInSetMeaning` | src/main/java/com/horndroid/analysis/Analysis.java:813-824 | the walk up the chain answers true exactly when some class on the chain has its short-name hash in the set |
| `Hierarchy.InSetOrChild` | src/main/java/com/horndroid/analysis/Analysis.java:813-848 | true exactly when the class, an ancestor or a direct subclass has its short-name hash in the set |
| `Hierarchy.TestLauncherActivity` | src/main/java/com/horndroid/analysis/Analysis.java:830-848 | a class is a launcher activity exactly when it, an ancestor or a direct subclass is named in the manifest's launcher activities |
| `Hierarchy.TestApplication` | src/main/java/com/horndroid/analysis/Analysis.java:858-876 | a class is an application class exactly when it, an ancestor or a direct subclass is named in the manifest's application classes |
| `Hierarchy.TestEntryPointMeaning` | src/main/java/com/horndroid/analysis/Analysis.java:1250-1266 | a method is an entry point of a class exactly when it is one of some class on its superclass chain |
| `HeapRules.ReachRulesLength` | src/main/java/com/horndroid/analysis/Analysis.java:345-369 | the reachability rules number one per slot of every site's block |
| `HeapRules.ReachRuleForSlot` | src/main/java/com/horndroid/analysis/Analysis.java:354-368 | every slot of every site's block has its induction rule ReachLH(val, vfp) ∧ slot holds a local pointer rez ⇒ ReachLH(val, rez) |
| `HeapRules.AllocateReady` | src/main/java/com/horndroid/analysis/Analysis.java:462-506 | right after the layout pass, every number below localHeapNumberEntries has a site with an offset and a size |
| `HeapRules.AllocateSizeNat` | src/main/java/com/horndroid/analysis/Analysis.java:498 | a recorded size is a field count, whatever the hash collisions |
| `HeapRules.BlocksIsSpan` | src/main/java/com/horndroid/analysis/Analysis.java:498-501 | with distinct site hashes, the blocks of the first m sites span exactly the slots the layout loop counted |
| `HeapRules.ReachRuleCount` | src/main/java/com/horndroid/analysis/Analysis.java:345-369 | `generateReachLHRules` adds one base fact plus as many induction rules as the local heap has slots |
| `HeapRules.CFilterRules` | src/main/java/com/horndroid/analysis/Analysis.java:376-412 | one filter rule per numbered site |
| `HeapRules.CFilterRuleOfSite` | src/main/java/com/horndroid/analysis/Analysis.java:394-411 | the e-th filter rule is the rule of the site numbered e |
| `HeapRules.CFilterRuleMarksBlock` | src/main/java/com/horndroid/analysis/Analysis.java:394-411 | a site's filter rule marks exactly the slots of its block, and marks them true |
| `HeapRules.MainEntryRegisters` | src/main/java/com/horndroid/analysis/Analysis.java:608-628 | the entry fact's registers: value 0 below numRegCall - regCount and the register variable above; high and local false; global false below numRegCall - regCount |
| `HeapRules.MainEntryRegisterMaps` | src/main/java/com/horndroid/analysis/Analysis.java:608-628 | the same facts about the entry fact's register maps |
| `HeapRules.MainEntryHeap` | src/main/java/com/horndroid/analysis/Analysis.java:620-626 | every local-heap slot of the entry fact is 0 and false |
| `HeapRules.MainEntryHeapMaps` | src/main/java/com/horndroid/analysis/Analysis.java:620-626 | the entry fact's local-heap maps are 0 and false up to localHeapSize |
| `AnalysisCore.ClassFieldsMapping` | src/main/java/com/horndroid/analysis/Analysis.java:330-338 | the result maps 0 .. n-1 onto the input's keys, one each, in increasing order |
| `AnalysisCore.PositionMap` | src/main/java/com/horndroid/analysis/Analysis.java:334-336 | position i maps to the i-th element of the list, and nothing else is mapped |
| `AnalysisCore.CodeAddresses` | src/main/java/com/horndroid/analysis/Analysis.java:757-762 | each instruction's code address is the sum of the code units of the instructions before it |
| `AnalysisCore.CodeAddressesChain` | src/main/java/com/horndroid/analysis/Analysis.java:757-762 | the next instruction starts where this one's code units end, and the addresses never decrease |
| `AnalysisCore.MkLabelInjective` | src/main/java/com/horndroid/analysis/Analysis.java:879-881 | two labels are equal only for equal class hash, method hash and pc |
| `AnalysisCore.JoinLabelInjective` | src/main/java/com/horndroid/analysis/Analysis.java:879-881 | joining three numbers with underscores is injective, in both directions |
| `AnalysisCore.AllocationLoop` | src/main/java/com/horndroid/analysis/Analysis.java:469-502 | the loop over the sites ends in the reference allocation of the kept sites |
| `AnalysisCore.AllocationPass` | src/main/java/com/horndroid/analysis/Analysis.java:469-502 | a skipped site changes nothing; a kept one gets the next number and the next block of size fields + 1 |
| `AnalysisCore.Analysis.constructor` | src/main/java/com/horndroid/analysis/Analysis.java:102 | the analysis starts with empty layout tables and zero counters |
| `AnalysisCore.Analysis.GetClassFields` | src/main/java/com/horndroid/analysis/Analysis.java:544-590 | the field map of the class, as `Layout.ClassFields` defines it |
| `AnalysisCore.Analysis.GetFieldOffset` | src/main/java/com/horndroid/analysis/Analysis.java:513-523 | a field's offset is its rank among the class's field hashes; a missing field and an unknown class are reported, not given an offset |
| `AnalysisCore.Analysis.InitializeAllocationMapping` | src/main/java/com/horndroid/analysis/Analysis.java:462-507 | given the instance set, joined with the stub instances when the stubs option is on, the tables become the allocation of its kept sites, from counters at 0, and then cover every numbered site |
| `AnalysisCore.Analysis.GenerateReachLHRules` | src/main/java/com/horndroid/analysis/Analysis.java:345-369 | appends the base fact ReachLH(val, val) and then the induction rule of every slot, and nothing else |
| `AnalysisCore.Analysis.GeneratesCFilter` | src/main/java/com/horndroid/analysis/Analysis.java:376-412 | appends the all-false filter fact and then one rule per site, and nothing else |
| `AnalysisCore.Analysis.AddToMain` | src/main/java/com/horndroid/analysis/Analysis.java:597-643 | appends exactly the entry fact of the method at program point 0 |
| `AnalysisCore.Analysis.PrepareLocalHeap` | src/main/java/com/horndroid/analysis/Analysis.java:1198-1214 | in the flow-sensitive mode: computes the layout, hands offsets, sizes and the heap size to the engine, then adds the reachability and filter rules |
| `AnalysisCore.Analysis.SetView` | src/main/java/com/horndroid/analysis/Analysis.java:462-507 | stores the given layout tables and counters |
| `Pool.MethodEntries` | src/main/java/com/horndroid/analysis/Analysis.java:903-916 | an app class contributes one entry per method, in declaration order; any other class none |
| `Pool.ClassStepIdempotent` | src/main/java/com/horndroid/analysis/Analysis.java:903-916 | adding the same class twice is the same as adding it once, and the class is then recorded as added |
| `Pool.ClassStepCovered` | src/main/java/com/horndroid/analysis/Analysis.java:903-916 | adding a class keeps every pool entry's (class, method) pair scheduled |
| `Pool.EntriesStepFacts` | src/main/java/com/horndroid/analysis/Analysis.java:918-929 | `addToPool` schedules exactly the pairs of the entries, leaves the added classes alone, and enqueues only entries whose pair was new, each pair once |
| `Pool.PoolStepCovered` | src/main/java/com/horndroid/analysis/Analysis.java:918-929 | `addToPool` keeps every pool entry's pair scheduled |
| `Pool.WorkPool.constructor` | src/main/java/com/horndroid/analysis/Analysis.java:102 | the pool, the added classes and the scheduled pairs start empty |
| `Pool.WorkPool.AddClassFromApk` | src/main/java/com/horndroid/analysis/Analysis.java:903-916 | the new state is the reference step `ClassStep` of the old one |
| `Pool.WorkPool.AddToPool` | src/main/java/com/horndroid/analysis/Analysis.java:918-929 | the new state is the reference step `PoolStep` of the old one; a null map changes nothing |
| `FsEngine.FillArg` | src/z3/Z3Engine.java:585-590 | a filled slot is read as the stored expression, any other slot as its default |
| `FsEngine.OverrideGet` | src/analysis/FSInstructionAnalysis.java:3558-3562 | after the counting loop of `put`s, a slot of the range holds the generated value and every other slot what the map held |
| `FsEngine.StridedGet` | src/analysis/FSInstructionAnalysis.java:407-414 | a loop that steps its index twice writes only the slots at an even distance from the start |
| `FsEngine.FsArgsRegisters` | src/z3/Z3Engine.java:579-597 | the register part of the `R` arguments: four blocks of numArg + numReg + 1, each position the non-null map entry or the register's own variable |
| `FsEngine.FsArgsHeap` | src/z3/Z3Engine.java:579-597 | the local-heap part: five blocks of localHeapSize after the registers, filled by the same rule |
| `FsEngine.FsArgsAt` | src/z3/Z3Engine.java:585-590 | an argument position of any of the nine blocks holds the entry or the default of its slot |
| `FsEngine.SlotHeap` | src/z3/Z3Engine.java:585-590 | the five local-heap arguments of slot j are the five maps' entries at j or their defaults |
| `FsEngine.NoUpdatesIsIdentity` | src/z3/Z3Engine.java:585-590 | with no overrides every argument of `R` is its slot's own variable, so the clause leaves the whole state unchanged |
| `FsEngine.NullIsNoUpdate` | src/z3/Z3Engine.java:586-590 | storing null in an update map is the same as not updating that slot |
| `FsEngine.FSEngine.Initialize` | src/main/java/com/horndroid/analysis/Analysis.java:1208 | records the local-heap size, the offsets and the sizes computed by the analysis |
| `FsEngine.FSEngine.AddRule` | src/z3/Z3Engine.java:111-120 | appends the rule; nothing else changes |
| `FsEngine.FSEngine.AddQuery` | src/z3/Z3Engine.java:448-472 | the same merge-or-retire step on the cached query as the solver front end's `addQuery` |
| `FsInstr.MoveCopiesRegister` | src/analysis/FSInstructionAnalysis.java:211-243 | move and move-result copy all four components of the source into A and leave every other register and the whole local heap as they were |
| `FsInstr.ConstIsPlain` | src/analysis/FSInstructionAnalysis.java:288-318 | a constant is stored as a plain value: not high, not local, not global |
| `FsInstr.InstanceOfBothOutcomes` | src/analysis/FSInstructionAnalysis.java:349-369 | instance-of leaves both outcomes possible: one edge gives A the value 0 and the other 1, both to the next address |
| `FsInstr.ReturnSummarizes` | src/analysis/FSInstructionAnalysis.java:267-287 | the summary shows the parameter registers in order, then the returned register, each with all four components |
| `FsInstr.PackedCases` | src/analysis/FSInstructionAnalysis.java:788-834 | a packed table lists consecutive keys from the first key, each with its target |
| `FsInstr.Op3DiffersOnlyForRemAndShl` | src/analysis/FSInstructionAnalysis.java:2019-2243 | the three-register forms build the same term as the /2addr forms except rem, which builds `bvudiv`, and shl, which builds `bvxor` |
| `FsInstr.ArithmeticKeepsPointerFlags` | src/analysis/FSInstructionAnalysis.java:2399-2429 | the arithmetic helpers write the value and the high label of A and nothing else; A's local and global flags flow through |
| `FsInstr.BranchEdges` | src/analysis/FSInstructionAnalysis.java:3587-3602 | a conditional branch has exactly two edges, to the target under g and to the next address under not g, and neither changes any register or slot |
| `FsInstr.IfGuardMeaning` | src/analysis/FSInstructionAnalysis.java:908-960 | reading `fsengine.bvult`, `bvuge`, `bvugt` and `bvule` as the unsigned relations of their names, if-kind vA, vB jumps exactly when the unsigned values of A and B are in the kind's relation, and falls through otherwise |
| `FsInstr.IfZeroGuardMeaning` | src/analysis/FSInstructionAnalysis.java:961-1014 | with the same by-name reading of the builders, if-kindz vA jumps exactly when the unsigned value of A is in the kind's relation to 0 |
| `FsInstr.SignTestsAreConstant` | src/analysis/FSInstructionAnalysis.java:961-1014 | with the same by-name reading, the comparisons are unsigned, so if-ltz never jumps and if-gez always does, whatever A holds |
| `FsInstr.IfGuardZ3ReadingMeaning` | src/z3/Z3Engine.java:358-366 | if `fsengine.bvult` builds the less-or-equal that `Z3Engine.bvult` builds, if-lt vA, vB jumps when A is at most B, if-ltz jumps exactly when A is 0, and the other kinds keep their by-name meaning |
| `FsInstr.NegationStringMeaning` | src/analysis/FSInstructionAnalysis.java:788-875 | the negation chain holds exactly when A equals every key of the table at once |
| `FsInstr.SwitchShape` | src/analysis/FSInstructionAnalysis.java:788-875 | one clause per case, to the case's target under the case test, then the fall-through clause to the next address |
| `FsInstr.CaseTestMeaning` | src/analysis/FSInstructionAnalysis.java:788-875 | a case is taken exactly when A holds its key, modulo 2^width |
| `FsInstr.FallThroughMeaning` | src/analysis/FSInstructionAnalysis.java:788-875 | the fall-through is taken unless A equals all keys at once, and always when no table is found |
| `FsInstr.FallThroughAlwaysTaken` | src/analysis/FSInstructionAnalysis.java:788-875 | as written, with two keys that differ modulo 2^width the fall-through guard holds for every A, including the values that take a case |
| `FsInstr.FallThroughSingleKey` | src/analysis/FSInstructionAnalysis.java:788-875 | with a single key the fall-through is taken exactly when A differs from it |
| `FsInstr.PackedKeysConsecutive` | src/analysis/FSInstructionAnalysis.java:788-834 | a packed table's cases are taken at consecutive keys |
| `FsHeap.LiftWithShape` | src/analysis/FSInstructionAnalysis.java:3528-3552 | lifting an object gives one H fact per field of its class, or the wildcard fact alone without a field map, each about the object and guarded by h |
| `FsHeap.LiftWithField` | src/analysis/FSInstructionAnalysis.java:3533-3543 | the fact of field f is at position rank(f) and reads local-heap slot offset + rank(f) |
| `FsHeap.LiftObjectShape` | src/analysis/FSInstructionAnalysis.java:3528-3552 | at an allocation site: the facts of `liftObject` are H facts about the site, one per field of its class, or the wildcard fact alone |
| `FsHeap.LiftObjectField` | src/analysis/FSInstructionAnalysis.java:3528-3552 | at a site whose class has field f: the fact of f is at position rank(f) and reads slot offset + rank(f) |
| `FsHeap.LiftAllFacts` | src/analysis/FSInstructionAnalysis.java:3578-3581 | lifting every site gives as many facts as the sites' counts add up to, each an H fact guarded by h about one of the sites |
| `FsHeap.LiftedStateFacts` | src/analysis/FSInstructionAnalysis.java:3556-3574 | the state clause of `liftIfLocal`: registers 0..numRegLoc are global when they were global or local and are no longer local, the others keep their entries, every slot is reset fresh, and the single update wins |
| `FsHeap.NewInstanceRegisters` | src/analysis/FSInstructionAnalysis.java:393-402 | the allocation clause makes A a local pointer to the site and lifts every other register that pointed locally to another object of the site |
| `FsHeap.InitObjectSlots` | src/analysis/FSInstructionAnalysis.java:407-414 | initialising the object makes exactly its slots at an even distance from its offset fresh |
| `FsHeap.NewInstanceSlots` | src/analysis/FSInstructionAnalysis.java:405-419 | exactly the new object's even-distance slots are made fresh; every other slot keeps its entries |
| `FsHeap.NewArrayIsGlobal` | src/analysis/FSInstructionAnalysis.java:484-527 | as written, the new array's register is a global pointer, and no other register or slot changes |
| `FsHeap.NewArrayIndexGuard` | src/analysis/FSInstructionAnalysis.java:496-507 | with the comparison builders read by name, the index guard holds exactly when the index is 0 and the length is not, so only cell 0 of a new array gets its initial fact |
| `FsHeap.NewArrayIndexGuardZ3Reading` | src/analysis/FSInstructionAnalysis.java:496-507 | if `fsengine.bvult` builds what `Z3Engine.bvult` builds, the index guard holds exactly when the index is 0, whatever the length |
| `FsHeap.StoreAllLength` | src/analysis/FSInstructionAnalysis.java:528-726 | each stored element adds its heap fact and one lifting of every site |
| `FsHeap.StoreAllFacts` | src/analysis/FSInstructionAnalysis.java:528-726 | the k-th element's heap fact sits at position k times the clauses per element |
| `FsHeap.FilledItems` | src/analysis/FSInstructionAnalysis.java:528-688 | filled-new-array stores its registers from the last down to C, the k-th at index k with the arrays option and at index 0 without |
| `FsHeap.RangeItems` | src/analysis/FSInstructionAnalysis.java:689-726 | filled-new-array/range stores its registers from the start register up, the k-th at index k with the arrays option |
| `FsHeap.AGetReadsHeap` | src/analysis/FSInstructionAnalysis.java:1015-1051 | aget gives A the heap value whole and changes nothing else |
| `FsHeap.TaintRuleFacts` | src/analysis/FSInstructionAnalysis.java:1052-1092 | storing through B taints it: B's high label becomes the join of B's and A's, nothing else changes |
| `FsHeap.IGetLocalGuardsReadNull` | src/analysis/FSInstructionAnalysis.java:1093-1140 | as written, the local guards of iget read B from just-cleared maps, so each compares null with true and with the site; one clause per site whose class has the field |
| `FsHeap.IPutLocalCount` | src/analysis/FSInstructionAnalysis.java:1141-1210 | without a null dereference the local branch of iput gives one clause per site whose class has the field and leaves the maps empty |
| `FsHeap.IPutLocalRuleReadsNull` | src/analysis/FSInstructionAnalysis.java:1141-1210 | as written, each local clause of iput is built from empty maps, so its guard tests a null read of B |
| `FsHeap.IPutLocalFacts` | src/analysis/FSInstructionAnalysis.java:1141-1210 | each local clause of iput writes A's four components into the field's slot of a site whose class has the field |
| `FsHeap.SGetZeroFacts` | src/analysis/FSInstructionAnalysis.java:1211-1246 | the first sget clause sets A to 0 and changes nothing else |
| `FsHeap.SGetReadsOverriddenState` | src/analysis/FSInstructionAnalysis.java:1211-1246 | as written, the field-reading clause of sget is guarded by `R` with A already overridden to 0 |
| `FsHeap.SGetGivesField` | src/analysis/FSInstructionAnalysis.java:1211-1246 | the field-reading clause gives A the field's value and label |
| `FsHeap.StaticFieldOwner` | src/analysis/FSInstructionAnalysis.java:1211-1276 | static fields are read and written on the nearest declaring class up the superclass chain, or on the named class when none declares them |
| `FsHeap.SiteTestMeaning` | src/analysis/FSInstructionAnalysis.java:3604-3627 | the site test holds exactly when the register's value is a site whose callee-heap fresh flag is set |
| `FsHeap.LiftLiMeaning` | src/analysis/FSInstructionAnalysis.java:3604-3627 | after `liftLi`, a register is global exactly when it was global, or local and pointing to a site whose callee-heap fresh flag is set |
| `FsInvoke.ImplementationKey` | src/analysis/FSInstructionAnalysis.java:1282-1321 | the looked-up pair: an executor's execute(Runnable) looks up Runnable.run(), a thread's start() its class's run(), an AsyncTask's execute its doInBackground, every other call the called method |
| `FsInvoke.OrdinaryCallKey` | src/analysis/FSInstructionAnalysis.java:1282-1321 | a call that starts no thread or task looks up the called method itself |
| `FsInvoke.ImplStateCleared` | src/analysis/FSInstructionAnalysis.java:1336-1399 | after one implementation the register maps are cleared exactly when it has an instance |
| `FsInvoke.InvokeRuleCount` | src/analysis/FSInstructionAnalysis.java:1336-1399 | the call emits two clauses per instance of every implementation: one entering the callee, one resuming |
| `FsInvoke.InvokeQueryCount` | src/analysis/FSInstructionAnalysis.java:1331-1333 | each sink implementation asks one query per argument register |
| `FsInvoke.ImplQueryCount` | src/analysis/FSInstructionAnalysis.java:1331-1333 | one implementation asks one query per argument when it is a sink, none otherwise |
| `FsInvoke.StateAfterCleared` | src/analysis/FSInstructionAnalysis.java:1336-1399 | the register maps end cleared exactly when some implementation has an instance; the local-heap maps never change |
| `FsInvoke.InvokeQueriesAtCall` | src/analysis/FSInstructionAnalysis.java:1331-1333 | every query of a resolved call is asked at `R` of the call's address and carries the call's place and name |
| `FsInvoke.UnresolvedQueriesAtCall` | src/analysis/FSInstructionAnalysis.java:1410-1414 | the same for a call with no known implementation |
| `FsInvoke.ImplQueriesAtCall` | src/analysis/FSInstructionAnalysis.java:1331-1333 | the same for one implementation |
| `FsInvoke.InvokeQueriesMerge` | src/analysis/FSInstructionAnalysis.java:1323-1414 | all sink queries of one call are merged into a single query |
| `FsInvoke.CallHeadRegister` | src/analysis/FSInstructionAnalysis.java:1336-1357 | the call clause's head is `R` at address 0 of the callee; each callee register holds the entry maps' four components, 0 and false where they have none |
| `FsInvoke.CallHeadLocalHeap` | src/analysis/FSInstructionAnalysis.java:1336-1357 | the caller's local heap is passed on unchanged to the callee's entry |
| `FsInvoke.SummaryArguments` | src/analysis/FSInstructionAnalysis.java:1359-1399 | the summary read on return is the called method's in the implementation's class: argument k is caller register k, the last slot the callee's result; as written, a thread's start() reads the summary labelled start(), not run() |
| `FsInvoke.ResumeRegisters` | src/analysis/FSInstructionAnalysis.java:1359-1399 | after the call the registers keep value, high and local; G is lifted by `liftLi`; a value-returning call puts the callee's result into the result register |
| `FsInvoke.ResultSecretIffSource` | src/analysis/FSInstructionAnalysis.java:1383-1392 | the returned value is secret exactly when the implementation is a source or the callee's result is high |
| `FsInvoke.ResumeHeap` | src/analysis/FSInstructionAnalysis.java:1394-1400 | after the call the local heap is the callee's, each fresh flag the join of the caller's and the callee's |
| `FsInvoke.SummaryHeap` | src/analysis/FSInstructionAnalysis.java:1359-1399 | the summary's local heap is the callee's |
| `Calls.ArgCount` | src/analysis/FSInstructionAnalysis.java:2431-2464 | a five-register form uses its count when that is 1 .. 5, and 0 registers otherwise |
| `Calls.Args` | src/analysis/FSInstructionAnalysis.java:2431-2464 | the argument registers in the order C, D, E, F, G, as many as the count |
| `Calls.Vars` | src/analysis/FSInstructionAnalysis.java:2431-2464 | one variable of the chosen kind per register, in order |
| `Calls.GetLabels` | src/analysis/FSInstructionAnalysis.java:2431-2464 | the disjunction of the arguments' high labels, false for a count outside 1 .. 5 |
| `Calls.GetLabelsMeaning` | src/analysis/FSInstructionAnalysis.java:2431-2464 | the labels hold exactly when some argument register is high |
| `Calls.GetLabelsRange` | src/analysis/FSInstructionAnalysis.java:2466-2479 | the loop builds the label chain over the range |
| `Calls.LabelChainMeaning` | src/analysis/FSInstructionAnalysis.java:2466-2479 | the label chain holds exactly when one of the registers start .. start + n - 1 is high |
| `Calls.GetLabelsRangeMeaning` | src/analysis/FSInstructionAnalysis.java:2466-2479 | the range labels hold exactly when some register of the range is high |
| `Calls.UpdateRegisterFiveMeaning` | src/analysis/FSInstructionAnalysis.java:2774-2817 | the callee registers filled are exactly the two argument windows, argument k in both, and none for a count out of range |
| `Calls.RangeRegisterGet` | src/analysis/FSInstructionAnalysis.java:2818-2828 | the range branch writes exactly the caller registers start .. start + n - 1 and the parameter copies, each holding the variable of the last pass that wrote it |
| `Calls.RangeRegisterDisjoint` | src/analysis/FSInstructionAnalysis.java:2818-2828 | as written, when the windows do not overlap, the k-th argument is stated as the variable numbered k, not as a caller register |
| `Calls.UpdateRegisterSwitch` | src/analysis/FSInstructionAnalysis.java:2774-2817 | the switch on the count equals its reference: two `put`s per argument into a fresh map |
| `Calls.UpdateResultSwitch` | src/analysis/FSInstructionAnalysis.java:2835-2864 | the switch on the count equals its reference: one `put` per argument into a fresh map |
| `Calls.UpdateRegister` | src/analysis/FSInstructionAnalysis.java:2772-2831 | the map built is the five-register reference map, or the range map after the loop |
| `Calls.UpdateResultFiveMeaning` | src/analysis/FSInstructionAnalysis.java:2835-2864 | slots 0 .. numArg-1 hold the arguments in order, and none for a count out of range |
| `Calls.UpdateResult` | src/analysis/FSInstructionAnalysis.java:2833-2878 | the map built is the five-register reference map, or callee variable k at slot k for k below numReg |
| `Calls.RangeResultGet` | src/analysis/FSInstructionAnalysis.java:2865-2875 | the range branch names slots 0 .. numReg - 1, each holding its own callee variable |
| `Calls.HighRegFiveMeaning` | src/analysis/FSInstructionAnalysis.java:2544-2738 | for distinct arguments, argument k becomes high when it was high or is a reference while another argument is high; every other register keeps its entry |
| `Calls.HighReg` | src/analysis/FSInstructionAnalysis.java:2541-2769 | the map built is the five-register reference map, or the range map after the loop |
| `Calls.HighRegRangeAsWritten` | src/analysis/FSInstructionAnalysis.java:2739-2767 | as written, the range branch keeps each argument's own label: it is high exactly when it was, whatever the others |
| `Calls.SinkQueries` | src/analysis/FSInstructionAnalysis.java:2498-2539 | one query per argument, about G, F, E, D, C in that order as the switch falls through |
| `Calls.RangeQueries` | src/analysis/FSInstructionAnalysis.java:2481-2496 | one query per register of the range, from the start register up |
| `Calls.RangeQueryAt` | src/analysis/FSInstructionAnalysis.java:2481-2496 | query t of a range asks about register start + t |
| `Calls.SinkQueriesCover` | src/analysis/FSInstructionAnalysis.java:2498-2539 | every argument register of a sink call has its query |
| `Calls.SinkQueriesMerge` | src/analysis/FSInstructionAnalysis.java:2498-2539 | the sink queries of one call reach the solver as a single merged query |
| `Calls.RangeQueriesMerge` | src/analysis/FSInstructionAnalysis.java:2481-2496 | the range queries of one call reach the solver as a single merged query |
| `FsAnalysis.ReturnShift` | src/analysis/FSInstructionAnalysis.java:275-282 | the loop of return puts parameter register numRegLoc + 1 + k at summary slot k, for every parameter, and keeps the other entries |
| `FsAnalysis.ReturnMaps` | src/analysis/FSInstructionAnalysis.java:271-282 | the summary maps of return: slot numParLoc shows A, slot k < numParLoc the shifted parameter register |
| `FsAnalysis.LiftRegistersLoop` | src/analysis/FSInstructionAnalysis.java:3558-3562 | registers 0 .. numRegLoc become global where they were global or local, and no longer local; other entries stay |
| `FsAnalysis.ResetHeapLoop` | src/analysis/FSInstructionAnalysis.java:3565-3571 | every local-heap slot becomes (0, false, false, false, true) |
| `FsAnalysis.CalleeHeapLoop` | src/analysis/FSInstructionAnalysis.java:120-134 | slot i of the callee heap maps holds its own five callee-heap variables, for every slot |
| `FsAnalysis.LiftInstanceLoop` | src/analysis/FSInstructionAnalysis.java:393-396 | each register 0 .. numRegLoc becomes global when it was global or local pointing to the site, and stays local only when it points to the site |
| `FsAnalysis.InitObjectLoop` | src/analysis/FSInstructionAnalysis.java:407-414 | the loop that steps its index twice makes only the slots offset, offset + 2, … below offset + size fresh |
| `FsAnalysis.AllocatedMaps` | src/analysis/FSInstructionAnalysis.java:393-419 | the maps of the allocation clause: registers lifted, A the new local object, the object's even-distance slots fresh |
| `FsAnalysis.LiftedMaps` | src/analysis/FSInstructionAnalysis.java:3556-3574 | the maps `liftIfLocal` builds its state clause from: registers lifted, local heap reset, then the single update |
| `FsAnalysis.JoinLoop` | src/analysis/FSInstructionAnalysis.java:1394-1398 | each slot's fresh flag after a call is the disjunction of the caller's and the callee's flag, nulls included |
| `FsAnalysis.LiftFields` | src/analysis/FSInstructionAnalysis.java:3533-3543 | appends one H fact per field key, the k-th read from slot offset + k |
| `FsAnalysis.LiftSite` | src/analysis/FSInstructionAnalysis.java:3528-3552 | appends exactly the facts of `liftObject` for the site |
| `FsAnalysis.LiftSites` | src/analysis/FSInstructionAnalysis.java:3578-3581 | appends the facts of every site, in order |
| `FsAnalysis.LiftSitesRepeated` | src/analysis/FSInstructionAnalysis.java:459-466 | appends, for every site, its facts once per slot of the new object |
| `FsAnalysis.StoreElements` | src/analysis/FSInstructionAnalysis.java:528-726 | appends, for each stored element, its heap fact and then the lifting of every site |
| `FsAnalysis.IGetLocalLoop` | src/analysis/FSInstructionAnalysis.java:1114-1138 | appends the local clause of each site whose class has the field, up to the first site without a class or field map, which is reported as a null dereference |
| `FsAnalysis.IPutLocalLoop` | src/analysis/FSInstructionAnalysis.java:1188-1208 | the same for the local stores of iput |
| `FsAnalysis.AddQueryRange` | src/analysis/FSInstructionAnalysis.java:2481-2496 | the legacy engine's queries become those of the range, merged as `addQuery` merges them |
| `FsAnalysis.FSInstructionAnalysis.constructor` | src/analysis/FSInstructionAnalysis.java:85-118 | every update map starts empty |
| `FsAnalysis.FSInstructionAnalysis.PutRegister` | src/analysis/FSInstructionAnalysis.java:211-229 | writes the four components of one register and nothing else |
| `FsAnalysis.FSInstructionAnalysis.ClearRegisters` | src/analysis/FSInstructionAnalysis.java:3577 | empties the four register maps and nothing else |
| `FsAnalysis.FSInstructionAnalysis.ClearAll` | src/analysis/FSInstructionAnalysis.java:3577-3578 | empties all nine update maps |
| `FsAnalysis.FSInstructionAnalysis.Propagate` | src/analysis/FSInstructionAnalysis.java:2393-2397 | appends the clause carrying the state unchanged to the next address |
| `FsAnalysis.FSInstructionAnalysis.Move` | src/analysis/FSInstructionAnalysis.java:211-229 | appends the move clause; A now holds B's four components |
| `FsAnalysis.FSInstructionAnalysis.MoveResult` | src/analysis/FSInstructionAnalysis.java:230-243 | appends the move clause from the result slot numRegLoc |
| `FsAnalysis.FSInstructionAnalysis.Return` | src/analysis/FSInstructionAnalysis.java:267-287 | appends `R` here ⇒ the method summary, over the summary maps |
| `FsAnalysis.FSInstructionAnalysis.Const` | src/analysis/FSInstructionAnalysis.java:288-318 | appends the clause storing the literal as a plain value in A |
| `FsAnalysis.FSInstructionAnalysis.CheckCast` | src/analysis/FSInstructionAnalysis.java:319-348 | appends the two clauses for a non-zero global and a non-zero local pointer in A |
| `FsAnalysis.FSInstructionAnalysis.InstanceOf` | src/analysis/FSInstructionAnalysis.java:349-369 | appends the clause giving A the value 0 and, after clearing the register maps, the one giving it 1 |
| `FsAnalysis.FSInstructionAnalysis.ArrayLength` | src/analysis/FSInstructionAnalysis.java:370-381 | appends the clause giving A an unknown value with its label, not a pointer |
| `FsAnalysis.FSInstructionAnalysis.UnaryOp` | src/analysis/FSInstructionAnalysis.java:2399-2405 | appends the clause giving A the term and B's high label |
| `FsAnalysis.FSInstructionAnalysis.BinaryOp` | src/analysis/FSInstructionAnalysis.java:2407-2416 | appends the clause giving A the term and the join of A's and B's high labels |
| `FsAnalysis.FSInstructionAnalysis.BinaryOpC` | src/analysis/FSInstructionAnalysis.java:2418-2429 | appends the clause giving A the term and the join of B's and C's high labels |
| `FsAnalysis.FSInstructionAnalysis.CmpLong` | src/analysis/FSInstructionAnalysis.java:876-907 | appends the clause giving A 0, 1 or -1 with the join of the operands' labels |
| `FsAnalysis.FSInstructionAnalysis.Goto` | src/analysis/FSInstructionAnalysis.java:778-787 | appends the clause to codeAddress + offset |
| `FsAnalysis.FSInstructionAnalysis.CmpInstruction` | src/analysis/FSInstructionAnalysis.java:3587-3602 | appends the jump clause under g and the fall-through clause under not g |
| `FsAnalysis.FSInstructionAnalysis.IfTest` | src/analysis/FSInstructionAnalysis.java:908-960 | appends the two branch clauses with the kind's unsigned guard on A and B |
| `FsAnalysis.FSInstructionAnalysis.IfTestZero` | src/analysis/FSInstructionAnalysis.java:961-1014 | appends the two branch clauses with the kind's unsigned guard on A and 0 |
| `FsAnalysis.FSInstructionAnalysis.Switch` | src/analysis/FSInstructionAnalysis.java:788-875 | appends one clause per case of the table found, then the fall-through clause |
| `FsAnalysis.FSInstructionAnalysis.LiftObject` | src/analysis/FSInstructionAnalysis.java:3528-3552 | appends the facts of `liftObject` read from the current local-heap maps |
| `FsAnalysis.FSInstructionAnalysis.LiftIfLocal` | src/analysis/FSInstructionAnalysis.java:3556-3584 | returns the unused state clause, appends the liftings of every site, and leaves all maps empty |
| `FsAnalysis.FSInstructionAnalysis.LiftLi` | src/analysis/FSInstructionAnalysis.java:3604-3627 | rewrites only the G map, register by register, with the site test; the site of a number is read from the reverse table, 0 when the table lacks it |
| `FsAnalysis.FSInstructionAnalysis.InitializeLHC` | src/analysis/FSInstructionAnalysis.java:120-134 | the callee heap maps hold the fresh callee-heap variables |
| `FsAnalysis.FSInstructionAnalysis.NewInstance` | src/analysis/FSInstructionAnalysis.java:382-483 | an Intent only propagates; otherwise, for a site recorded in the allocation tables, appends the allocation clause, the lifting of the site's previous object and the repeated liftings, and leaves all maps empty |
| `FsAnalysis.FSInstructionAnalysis.NewArray` | src/analysis/FSInstructionAnalysis.java:484-527 | appends the global-pointer clause and the array's initial heap fact, and clears the register maps |
| `FsAnalysis.FSInstructionAnalysis.FilledNewArray` | src/analysis/FSInstructionAnalysis.java:528-688 | appends the result-slot clause and the stores of every register, from the last down to C |
| `FsAnalysis.FSInstructionAnalysis.FilledNewArrayRange` | src/analysis/FSInstructionAnalysis.java:689-726 | appends the result-slot clause and the stores of the range, from the start register up |
| `FsAnalysis.FSInstructionAnalysis.AGet` | src/analysis/FSInstructionAnalysis.java:1015-1051 | appends the clause giving A any value the heap holds for the array |
| `FsAnalysis.FSInstructionAnalysis.APut` | src/analysis/FSInstructionAnalysis.java:1052-1092 | appends the taint clause and the lifting when A is local, and adds the heap clause to the legacy engine |
| `FsAnalysis.FSInstructionAnalysis.IGet` | src/analysis/FSInstructionAnalysis.java:1093-1140 | appends the global read and the local reads; reports a null dereference for a site without a class or field map |
| `FsAnalysis.FSInstructionAnalysis.IPut` | src/analysis/FSInstructionAnalysis.java:1141-1210 | appends the taint, global store, lifting and local store clauses; reports a null dereference as iget does |
| `FsAnalysis.FSInstructionAnalysis.SGet` | src/analysis/FSInstructionAnalysis.java:1211-1246 | appends the zero clause and the field-reading clause on the nearest declaring class |
| `FsAnalysis.FSInstructionAnalysis.SPut` | src/analysis/FSInstructionAnalysis.java:1247-1276 | appends the propagation, the static-field fact and the lifting when A is local |
| `FsAnalysis.FSInstructionAnalysis.CallStep` | src/analysis/FSInstructionAnalysis.java:1336-1357 | appends one clause entering the callee for one instance, then clears the register maps |
| `FsAnalysis.FSInstructionAnalysis.CallLoop` | src/analysis/FSInstructionAnalysis.java:1336-1357 | appends the entering clause of every instance of the implementation |
| `FsAnalysis.FSInstructionAnalysis.SummaryClause` | src/analysis/FSInstructionAnalysis.java:1359-1381 | builds the callee summary over the `updateResult` maps and the fresh callee heap |
| `FsAnalysis.FSInstructionAnalysis.ResumeStep` | src/analysis/FSInstructionAnalysis.java:1359-1399 | appends one resume clause for one instance, then clears the register maps |
| `FsAnalysis.FSInstructionAnalysis.ResumeLoop` | src/analysis/FSInstructionAnalysis.java:1359-1399 | appends the resume clause of every instance, all read from the maps the first loop left |
| `FsAnalysis.FSInstructionAnalysis.ImplSinkQueries` | src/analysis/FSInstructionAnalysis.java:1331-1333 | adds the sink queries of a sink implementation, none otherwise |
| `FsAnalysis.FSInstructionAnalysis.InvokeImpl` | src/analysis/FSInstructionAnalysis.java:1326-1400 | one implementation: its sink queries, then both loops |
| `FsAnalysis.FSInstructionAnalysis.InvokeDefined` | src/analysis/FSInstructionAnalysis.java:1323-1401 | the loop over all implementations of the called method |
| `FsAnalysis.FSInstructionAnalysis.InvokeVirtual` | src/analysis/FSInstructionAnalysis.java:1277-1414 | the method is defined exactly when its looked-up key has implementations; then their clauses and queries are added, otherwise only the sink queries of the call |
| `FsAnalysis.FSInstructionAnalysis.UnresolvedSinkQueries` | src/analysis/FSInstructionAnalysis.java:1410-1414 | adds the call's sink queries when the called method is a sink, none otherwise |
| `FsAnalysis.FSInstructionAnalysis.AddQuery` | src/analysis/FSInstructionAnalysis.java:2498-2539 | adds one query per argument, from the last argument register down to C |

## Left out

- Running the solver (`executeAllQueries`, the thread pool and the timeouts) and all I/O, logging and command-line handling (`main`, `Main`, `Debug`): they are effects outside the clause encoding.
- The remaining `mk*`/`bv*` builders of the solver front end: they wrap solver constructors one to one. Expressions are a datatype, and only `bvult` and `bvsub`, which build a different operation from their name, are modelled.
- The reflective fallback of `getClassFields` (`Class.forName`): it depends on the running JVM's class path, so the model takes it to find no fields (null).
- The orchestration of `Analysis` (`collectDataFromApk`, `fetchUnknownMethod`, `fetchInvoke`, `fetchNewInstance`, `createHornClauses`): APK parsing and the threading around the per-instruction analysis. Their results (instances, implementations, sources and sinks, entry points) are inputs of the model.
- `processIntent` and the older summary of unresolved calls (src/analysis/FSInstructionAnalysis.java:1415-1478, 2881-3520): they emit clauses through the legacy engine only. The model stops at the sink queries of an unresolved call.
- The legacy-engine parts of move-exception, fill-array-data, the class-initialiser rule of new-instance, and the bodies of invoke-direct, invoke-static and the invoke ranges: these handlers build clauses for the non-flow-sensitive engine.
- The opcode decoding of `CreateHornClauses`: each handler takes its registers, literals, offsets and payload tables as parameters.
- Floating-point and wide arithmetic: values are bit-vectors of one width, as the encoding treats them.
- Concurrent maps and sets are plain maps and sets; iteration orders of hash-based collections are inputs, given as sequences.
- Hash values computed by code not shown (`Utils.Dec`, `CMPair.hashCode`, `DalvikInstance.hashCode`, `Utils.makeName`) are precomputed fields of the instance and implementation records.
- `FSEngine` is not part of this model. Its predicate builders are reconstructed from the `Z3Engine` default rule extended to the nine blocks. Its `getOffset`/`getSize` read the layout the analysis hands it.
- `FsInstr.IfGuardMeaning`, `FsInstr.IfZeroGuardMeaning`, `FsInstr.SignTestsAreConstant` and `FsHeap.NewArrayIndexGuard` read `fsengine.bvult`, `bvuge`, `bvugt` and `bvule` as the unsigned relations their names say. `FSEngine` is not part of this model, and the one builder of these names that is, `Z3Engine.bvult`, builds a less-or-equal. What the guards mean under that reading is stated separately (`FsInstr.IfGuardZ3ReadingMeaning`, `FsHeap.NewArrayIndexGuardZ3Reading`).
- A Java null that the code passes to `fsengine.or`, `and` or `eq` is kept as the `Null` subterm. This happens in the lift over cleared maps of new-instance, in the local guards of `iget`/`iput` and in the join after a call. `Guards` gives `Null` no meaning, so neither has a guard that contains it. What the solver context does with a null argument is not modelled.
- `FsAnalysis.FSInstructionAnalysis.LiftLi`: `liftLi` asks `getInstanceNum` for the site of each number, and `Analysis` defines no method of that name. The model reads the reverse table in its place, as `getInstanceNumFromReverse` (src/main/java/com/horndroid/analysis/Analysis.java:509-511) does. Its 0 for a number the table lacks stands for the exception that unboxing the missing entry throws.
- `FsAnalysis.FSInstructionAnalysis.NewInstance` requires that the site is recorded in the allocation tables, and that every site the lift loops visit has a class. This is left to the caller. In the code, a site that `initializeAllocationMapping` did not record, such as one the `sensIfHasSink` filter drops, makes `liftObject` read a null class name (src/analysis/FSInstructionAnalysis.java:3528-3530, src/main/java/com/horndroid/analysis/Analysis.java:525-527) and throw. That exception is not modelled.
- `Hierarchy.TestLauncherActivity` and `Hierarchy.TestApplication`: a class's type is a string in the model and is never null. So the first guard of `testLauncherActivity` and `testApplication`, which answers false for a class without a type (src/main/java/com/horndroid/analysis/Analysis.java:831-833, 859-861), has no counterpart. Every class having a type is left to the caller.
- `JavaInt.StringHash` hashes the string's characters, which are Unicode scalar values. Java's `String.hashCode` hashes UTF-16 code units. A name with a character above U+FFFF therefore has one term in the model where Java has two surrogates.
- `FsAnalysis.FSInstructionAnalysis.LiftIfLocal`: the state clause that `liftIfLocal` builds without adding it is returned and has no other effect.
- Odex-only and payload pseudo-opcodes emit no clause and are not modelled.
