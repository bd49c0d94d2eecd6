/**
 * `StringPair`, the (class type, method name) key of the set of methods that
 * belong to the analysed application.
 */
module StringPairs {
  import opened JavaInt

  datatype StringPair = StringPair(st1: string, st2: string)

  /** The argument of `equals`: a `StringPair` or some other Java object. */
  datatype Object = Pair(pair: StringPair) | OtherObject(id: int)

  /** The constructor stores both strings unchanged. */
  function NewStringPair(st1: string, st2: string): (p: StringPair)
    ensures p.st1 == st1 && p.st2 == st2
  {
    StringPair(st1, st2)
  }

  /** `17 * st1.hashCode() + 37 * st2.hashCode()` evaluated in Java `int` arithmetic:
      every product and the sum wrap around. */
  function HashCode(p: StringPair): (h: int)
    ensures IsInt32(h)
    ensures h == Wrap32(17 * StringHash(p.st1) + 37 * StringHash(p.st2))
  {
    WrapAdd(17 * StringHash(p.st1), 37 * StringHash(p.st2));
    Wrap32(Wrap32(17 * StringHash(p.st1)) + Wrap32(37 * StringHash(p.st2)))
  }

  /** `equals`: true exactly for a `StringPair` with equal components. */
  function Equals(p: StringPair, obj: Object): (r: bool)
    ensures r <==> obj.Pair? && obj.pair.st1 == p.st1 && obj.pair.st2 == p.st2
    ensures r <==> obj == Pair(p)
  {
    match obj
    case Pair(objSP) => objSP.st1 == p.st1 && objSP.st2 == p.st2
    case OtherObject(_) => false
  }

  lemma EqualsReflexive(p: StringPair)
    ensures Equals(p, Pair(p))
  {
  }

  lemma EqualsSymmetric(p: StringPair, q: StringPair)
    ensures Equals(p, Pair(q)) == Equals(q, Pair(p))
  {
  }

  lemma EqualsTransitive(p: StringPair, q: StringPair, r: StringPair)
    requires Equals(p, Pair(q)) && Equals(q, Pair(r))
    ensures Equals(p, Pair(r))
  {
  }

  /** The `hashCode`/`equals` contract: equal pairs hash alike. */
  lemma EqualsImpliesSameHash(p: StringPair, obj: Object)
    requires Equals(p, obj)
    ensures HashCode(p) == HashCode(obj.pair)
  {
  }

  /** The converse fails: the hash does not identify a pair. */
  lemma SameHashNotEqual()
    ensures var p, q := StringPair("Aa", "x"), StringPair("BB", "x");
      HashCode(p) == HashCode(q) && !Equals(p, Pair(q))
  {
    HashCollision();
  }

  /** Constructing two pairs and comparing them compares the strings. */
  lemma ConstructorEquals(a: string, b: string, c: string, d: string)
    ensures Equals(NewStringPair(a, b), Pair(NewStringPair(c, d))) <==> a == c && b == d
  {
  }
}
