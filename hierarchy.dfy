/**
 * Lookups along the superclass chain: where a static field is declared, and
 * whether a class counts as over-approximated, a launcher activity, an
 * application class or an entry point.
 */
module Hierarchy {
  import opened Wrappers
  import opened JavaInt
  import opened Classes

  /** The superclass chain starting at `c`: `c`, its superclass, and so on, as
      long as the class is an app class with a superclass. */
  function Chain(c: GeneralClass): (ch: seq<GeneralClass>)
    ensures |ch| >= 1 && ch[0] == c
  {
    if c.DalvikClass? && c.superClass.Some? then [c] + Chain(c.superClass.value) else [c]
  }

  /** Every link of the chain is a superclass edge. */
  lemma {:induction false} ChainLink(c: GeneralClass, k: int)
    requires 0 <= k && k + 1 < |Chain(c)|
    ensures Chain(c)[k].DalvikClass? && Chain(c)[k].superClass == Some(Chain(c)[k + 1])
  {
    assert c.DalvikClass? && c.superClass.Some?;
    var rest := Chain(c.superClass.value);
    assert Chain(c) == [c] + rest;
    if k > 0 {
      ChainLink(c.superClass.value, k - 1);
    }
  }

  /** The class declares a static (exact) field whose name hashes to `fi`. */
  predicate DeclaresField(c: GeneralClass, fi: int) {
    c.DalvikClass? && exists f :: f in c.exactFields && StringHash(f.name) == fi
  }

  /** The position of the first class in `ch` declaring the field, if any. */
  function FirstDeclaring(ch: seq<GeneralClass>, fi: int): (k: Option<nat>)
    ensures k.Some? ==> (k.value < |ch| && DeclaresField(ch[k.value], fi)
                         && forall j :: 0 <= j < k.value ==> !DeclaresField(ch[j], fi))
    ensures k.None? ==> forall j :: 0 <= j < |ch| ==> !DeclaresField(ch[j], fi)
  {
    if ch == [] then None
    else if DeclaresField(ch[0], fi) then Some(0)
    else
      var rest := FirstDeclaring(ch[1..], fi);
      assert forall j :: 0 < j < |ch| ==> ch[j] == ch[1..][j - 1];
      match rest
      case None => None
      case Some(k) => Some(k + 1)
  }

  /** `staticFieldLookup` from a class: the type hash of the nearest class on
      the superclass chain that declares the field; none when no class on the
      chain declares it (the chain ends at a class without superclass or at a
      class outside the app). */
  function StaticFieldLookupFrom(c: GeneralClass, fi: int): (r: Option<int>)
    ensures var k := FirstDeclaring(Chain(c), fi);
      r == if k.Some? then Some(StringHash(Chain(c)[k.value].ty)) else None
  {
    if c.DalvikClass? then
      if exists f :: f in c.exactFields && StringHash(f.name) == fi then
        assert DeclaresField(Chain(c)[0], fi);
        Some(StringHash(c.ty))
      else if c.superClass.Some? then
        var rest := Chain(c.superClass.value);
        assert Chain(c) == [c] + rest && Chain(c)[1..] == rest;
        StaticFieldLookupFrom(c.superClass.value, fi)
      else None
    else None
  }

  /** The lookup from a class succeeds exactly when some class on its chain
      declares the field. */
  lemma StaticFieldLookupFound(c: GeneralClass, fi: int)
    ensures StaticFieldLookupFrom(c, fi).Some? <==>
      exists k :: 0 <= k < |Chain(c)| && DeclaresField(Chain(c)[k], fi)
  {
    var ch := Chain(c);
    var k := FirstDeclaring(ch, fi);
    var r := StaticFieldLookupFrom(c, fi);
    assert r.Some? <==> k.Some?;
    if k.Some? {
      var j: int := k.value;
      assert 0 <= j < |ch| && DeclaresField(ch[j], fi);
      assert exists i :: 0 <= i < |Chain(c)| && DeclaresField(Chain(c)[i], fi);
      assert r.Some?;
    }
  }

  /** `staticFieldLookup(ci, fi)`: none when the class hash is unknown. */
  function StaticFieldLookup(classes: map<int, GeneralClass>, ci: int, fi: int): (r: Option<int>)
    ensures ci !in classes ==> r == None
    ensures ci in classes ==>
      (r.Some? <==> exists k :: 0 <= k < |Chain(classes[ci])| && DeclaresField(Chain(classes[ci])[k], fi))
  {
    if ci in classes then
      StaticFieldLookupFound(classes[ci], fi);
      StaticFieldLookupFrom(classes[ci], fi)
    else None
  }

  /** A chain with a superclass is the class followed by the superclass's chain. */
  lemma ChainTail(c: GeneralClass)
    requires c.DalvikClass? && c.superClass.Some?
    ensures Chain(c) == [c] + Chain(c.superClass.value)
    ensures forall k :: 0 < k < |Chain(c)| ==> Chain(c)[k] == Chain(c.superClass.value)[k - 1]
  {
  }

  lemma TypeOnChainTail(s: set<int>, c: GeneralClass)
    requires c.DalvikClass? && c.superClass.Some?
    ensures (exists k :: 0 <= k < |Chain(c)| && StringHash(Chain(c)[k].ty) in s)
        <==> StringHash(c.ty) in s
             || exists k :: 0 <= k < |Chain(c.superClass.value)| && StringHash(Chain(c.superClass.value)[k].ty) in s
  {
    var ch, rest := Chain(c), Chain(c.superClass.value);
    ChainTail(c);
    if k :| 0 <= k < |ch| && StringHash(ch[k].ty) in s {
      if k > 0 { assert StringHash(rest[k - 1].ty) in s; }
    }
    if k :| 0 <= k < |rest| && StringHash(rest[k].ty) in s {
      assert ch[k + 1] == rest[k];
    }
  }

  lemma NameOnChainTail(s: set<int>, c: GeneralClass)
    requires c.DalvikClass? && c.superClass.Some?
    ensures (exists k :: 0 <= k < |Chain(c)| && StringHash(Chain(c)[k].shortName) in s)
        <==> StringHash(c.shortName) in s
             || exists k :: 0 <= k < |Chain(c.superClass.value)| && StringHash(Chain(c.superClass.value)[k].shortName) in s
  {
    var ch, rest := Chain(c), Chain(c.superClass.value);
    ChainTail(c);
    if k :| 0 <= k < |ch| && StringHash(ch[k].shortName) in s {
      if k > 0 { assert StringHash(rest[k - 1].shortName) in s; }
    }
    if k :| 0 <= k < |rest| && StringHash(rest[k].shortName) in s {
      assert ch[k + 1] == rest[k];
    }
  }

  lemma EntryOnChainTail(entryPoints: set<CMPair>, c: GeneralClass, methodIndex: int)
    requires c.DalvikClass? && c.superClass.Some?
    ensures (exists k :: 0 <= k < |Chain(c)| && CMPair(StringHash(Chain(c)[k].ty), methodIndex) in entryPoints)
        <==> CMPair(StringHash(c.ty), methodIndex) in entryPoints
             || exists k :: 0 <= k < |Chain(c.superClass.value)|
                  && CMPair(StringHash(Chain(c.superClass.value)[k].ty), methodIndex) in entryPoints
  {
    var ch, rest := Chain(c), Chain(c.superClass.value);
    ChainTail(c);
    if k :| 0 <= k < |ch| && CMPair(StringHash(ch[k].ty), methodIndex) in entryPoints {
      if k > 0 { assert CMPair(StringHash(rest[k - 1].ty), methodIndex) in entryPoints; }
    }
    if k :| 0 <= k < |rest| && CMPair(StringHash(rest[k].ty), methodIndex) in entryPoints {
      assert ch[k + 1] == rest[k];
    }
  }

  /** `isInOverapprox` up the superclass chain: the class or an ancestor has
      its type hash in `overapprox`. */
  function SuperIsInOverapprox(overapprox: set<int>, c: GeneralClass): bool {
    if StringHash(c.ty) in overapprox then true
    else if c.DalvikClass? && c.superClass.Some? then SuperIsInOverapprox(overapprox, c.superClass.value)
    else false
  }

  /** The walk up the chain finds a class exactly when some class on the
      chain has its type hash in `overapprox`. */
  lemma {:induction false} SuperIsInOverapproxMeaning(overapprox: set<int>, c: GeneralClass)
    ensures SuperIsInOverapprox(overapprox, c)
        <==> exists k :: 0 <= k < |Chain(c)| && StringHash(Chain(c)[k].ty) in overapprox
  {
    if c.DalvikClass? && c.superClass.Some? {
      SuperIsInOverapproxMeaning(overapprox, c.superClass.value);
      TypeOnChainTail(overapprox, c);
    } else {
      assert Chain(c) == [c];
    }
  }

  /** `testOverapprox`: the class or an ancestor, or one of its direct
      subclasses, has its type hash in `overapprox`. */
  function TestOverapprox(overapprox: set<int>, c: GeneralClass): (r: bool)
    ensures r <==> (exists k :: 0 <= k < |Chain(c)| && StringHash(Chain(c)[k].ty) in overapprox)
                   || (c.DalvikClass? && exists ch :: ch in c.children && StringHash(ch.ty) in overapprox)
  {
    SuperIsInOverapproxMeaning(overapprox, c);
    SuperIsInOverapprox(overapprox, c)
    || (c.DalvikClass? && exists ch :: ch in c.children && StringHash(ch.ty) in overapprox)
  }

  /** The class or an ancestor has its short-name hash in `s`. */
  function SuperIsInSet(s: set<int>, c: GeneralClass): bool {
    if StringHash(c.shortName) in s then true
    else if c.DalvikClass? && c.superClass.Some? then SuperIsInSet(s, c.superClass.value)
    else false
  }

  lemma {:induction false} SuperIsInSetMeaning(s: set<int>, c: GeneralClass)
    ensures SuperIsInSet(s, c) <==> exists k :: 0 <= k < |Chain(c)| && StringHash(Chain(c)[k].shortName) in s
  {
    if c.DalvikClass? && c.superClass.Some? {
      SuperIsInSetMeaning(s, c.superClass.value);
      NameOnChainTail(s, c);
    } else {
      assert Chain(c) == [c];
    }
  }

  /** The class or an ancestor, or a direct subclass, has its short-name hash in `s`. */
  function InSetOrChild(s: set<int>, c: GeneralClass): (r: bool)
    ensures r <==> (exists k :: 0 <= k < |Chain(c)| && StringHash(Chain(c)[k].shortName) in s)
                   || (c.DalvikClass? && exists ch :: ch in c.children && StringHash(ch.shortName) in s)
  {
    SuperIsInSetMeaning(s, c);
    SuperIsInSet(s, c)
    || (c.DalvikClass? && exists ch :: ch in c.children && StringHash(ch.shortName) in s)
  }

  /** `testLauncherActivity` against the manifest's launcher activities. */
  function TestLauncherActivity(launcherActivities: set<int>, c: GeneralClass): (r: bool)
    ensures r <==> (exists k :: 0 <= k < |Chain(c)| && StringHash(Chain(c)[k].shortName) in launcherActivities)
                   || (c.DalvikClass? && exists ch :: ch in c.children && StringHash(ch.shortName) in launcherActivities)
  {
    InSetOrChild(launcherActivities, c)
  }

  /** `testApplication` against the manifest's application classes. */
  function TestApplication(applications: set<int>, c: GeneralClass): (r: bool)
    ensures r <==> (exists k :: 0 <= k < |Chain(c)| && StringHash(Chain(c)[k].shortName) in applications)
                   || (c.DalvikClass? && exists ch :: ch in c.children && StringHash(ch.shortName) in applications)
  {
    InSetOrChild(applications, c)
  }

  /** `testEntryPoint`: the method is an entry point of the class or of one of
      its ancestors. */
  function TestEntryPoint(entryPoints: set<CMPair>, c: GeneralClass, methodIndex: int): bool {
    if CMPair(StringHash(c.ty), methodIndex) in entryPoints then true
    else if c.DalvikClass? && c.superClass.Some? then TestEntryPoint(entryPoints, c.superClass.value, methodIndex)
    else false
  }

  lemma {:induction false} TestEntryPointMeaning(entryPoints: set<CMPair>, c: GeneralClass, methodIndex: int)
    ensures TestEntryPoint(entryPoints, c, methodIndex)
        <==> exists k :: 0 <= k < |Chain(c)| && CMPair(StringHash(Chain(c)[k].ty), methodIndex) in entryPoints
  {
    if c.DalvikClass? && c.superClass.Some? {
      TestEntryPointMeaning(entryPoints, c.superClass.value, methodIndex);
      EntryOnChainTail(entryPoints, c, methodIndex);
    } else {
      assert Chain(c) == [c];
    }
  }
}
