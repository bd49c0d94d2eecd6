/**
 * Java's 32-bit `int` arithmetic, `String.hashCode` and `Integer.toString`,
 * the three primitives that every identifier of the analysis is built from.
 * Class, method and field identifiers are `String.hashCode` values; relation
 * names and labels are decimal renderings of them.
 */
module JavaInt {
  import opened Wrappers

  const TWO_32: int := 0x1_0000_0000
  const INT_MIN: int := -0x8000_0000
  const INT_MAX: int := 0x7fff_ffff

  predicate IsInt32(x: int) {
    INT_MIN <= x <= INT_MAX
  }

  /** Two's-complement wrap-around of a mathematical integer to a Java `int`. */
  function Wrap32(x: int): (r: int)
    ensures IsInt32(r)
    ensures (x - r) % TWO_32 == 0
    ensures IsInt32(x) ==> r == x
  {
    var m := x % TWO_32;
    if m > INT_MAX then m - TWO_32 else m
  }

  /** Wrap-around commutes with addition and with multiplication by a constant:
      wrapping an intermediate result does not change the final `int`. */
  lemma WrapCongruent(x: int, y: int)
    requires (x - y) % TWO_32 == 0
    ensures Wrap32(x) == Wrap32(y)
  {
    var k := (x - y) / TWO_32;
    assert x == y + k * TWO_32;
    assert x % TWO_32 == y % TWO_32 by {
      ModShift(y, k);
    }
  }

  lemma ModShift(y: int, k: int)
    ensures (y + k * TWO_32) % TWO_32 == y % TWO_32
  {
  }

  lemma WrapAdd(a: int, b: int)
    ensures Wrap32(Wrap32(a) + Wrap32(b)) == Wrap32(a + b)
  {
    var ra, rb := Wrap32(a), Wrap32(b);
    var ka, kb := (a - ra) / TWO_32, (b - rb) / TWO_32;
    assert a == ra + ka * TWO_32;
    assert b == rb + kb * TWO_32;
    assert (a + b) - (ra + rb) == (ka + kb) * TWO_32;
    WrapCongruent(a + b, ra + rb);
  }

  lemma WrapScale(c: int, a: int)
    ensures Wrap32(c * Wrap32(a)) == Wrap32(c * a)
  {
    var ra := Wrap32(a);
    var ka := (a - ra) / TWO_32;
    assert a == ra + ka * TWO_32;
    assert c * a - c * ra == (c * ka) * TWO_32;
    WrapCongruent(c * a, c * ra);
  }

  /** `String.hashCode`: s[0]*31^(n-1) + ... + s[n-1], computed with wrap-around
      over the string's characters; a character above U+FFFF is one term
      here where Java hashes its two UTF-16 surrogates. */
  function StringHash(s: string): (h: int)
    ensures IsInt32(h)
  {
    HashPrefix(s, |s|)
  }

  /** The hash of the first n characters of s. */
  function HashPrefix(s: string, n: nat): (h: int)
    requires n <= |s|
    ensures IsInt32(h)
  {
    if n == 0 then 0 else Wrap32(31 * HashPrefix(s, n - 1) + s[n - 1] as int)
  }

  /** The polynomial that `String.hashCode` evaluates on the first n
      characters, without wrap-around. */
  function PolyPrefix(s: string, n: nat): int
    requires n <= |s|
  {
    if n == 0 then 0 else 31 * PolyPrefix(s, n - 1) + s[n - 1] as int
  }

  /** The polynomial of the whole string. */
  function Poly31(s: string): int {
    PolyPrefix(s, |s|)
  }

  /** The incremental hash equals the polynomial reduced once at the end. */
  lemma {:induction false} HashPrefixIsPoly(s: string, n: nat)
    requires n <= |s|
    ensures HashPrefix(s, n) == Wrap32(PolyPrefix(s, n))
  {
    if n > 0 {
      var p := PolyPrefix(s, n - 1);
      var c := s[n - 1] as int;
      HashPrefixIsPoly(s, n - 1);
      calc {
        HashPrefix(s, n);
        Wrap32(31 * Wrap32(p) + c);
        { WrapAdd(31 * Wrap32(p), c); }
        Wrap32(Wrap32(31 * Wrap32(p)) + Wrap32(c));
        { WrapScale(31, p); }
        Wrap32(Wrap32(31 * p) + Wrap32(c));
        { WrapAdd(31 * p, c); }
        Wrap32(PolyPrefix(s, n));
      }
    }
  }

  lemma StringHashIsPoly(s: string)
    ensures StringHash(s) == Wrap32(Poly31(s))
  {
    HashPrefixIsPoly(s, |s|);
  }

  /** Identifiers are not unique: two different names share one hash. */
  lemma HashCollision()
    ensures "Aa" != "BB" && StringHash("Aa") == StringHash("BB")
  {
    assert HashPrefix("Aa", 1) == 65 && HashPrefix("BB", 1) == 66;
  }

  function DigitChar(d: int): (c: char)
    requires 0 <= d < 10
    ensures '0' <= c <= '9' && c as int - '0' as int == d
  {
    ('0' as int + d) as char
  }

  /** Decimal digits of a natural number, most significant first, no leading zero. */
  function NatToString(n: nat): (s: string)
    ensures |s| > 0
    ensures forall i :: 0 <= i < |s| ==> '0' <= s[i] <= '9'
    ensures |s| > 1 ==> s[0] != '0'
  {
    if n < 10 then [DigitChar(n)] else NatToString(n / 10) + [DigitChar(n % 10)]
  }

  /** `Integer.toString`: a minus sign for negative numbers, then the digits. */
  function IntToString(n: int): (s: string)
    ensures |s| > 0
    ensures (s[0] == '-') <==> n < 0
  {
    if n < 0 then "-" + NatToString(-n) else NatToString(n)
  }

  /** Reads back a string of decimal digits. */
  function ParseNat(s: string): Option<nat> {
    if |s| == 0 then None
    else
      var last := s[|s| - 1];
      if !('0' <= last <= '9') then None
      else if |s| == 1 then Some(last as int - '0' as int)
      else match ParseNat(s[..|s| - 1])
        case None => None
        case Some(v) => Some(10 * v + (last as int - '0' as int))
  }

  function ParseInt(s: string): Option<int> {
    if |s| > 0 && s[0] == '-' then
      match ParseNat(s[1..])
        case None => None
        case Some(v) => Some(-(v as int))
    else match ParseNat(s)
      case None => None
      case Some(v) => var r: int := v; Some(r)
  }

  lemma {:induction false} ParseNatToString(n: nat)
    ensures ParseNat(NatToString(n)) == Some(n)
  {
    if n >= 10 {
      var s := NatToString(n);
      ParseNatToString(n / 10);
      assert s[..|s| - 1] == NatToString(n / 10);
    }
  }

  /** `Integer.toString` is read back exactly: distinct numbers give distinct strings. */
  lemma IntToStringRoundTrip(n: int)
    ensures ParseInt(IntToString(n)) == Some(n)
  {
    var s := IntToString(n);
    if n < 0 {
      ParseNatToString(-n);
      assert s[0] == '-' && s[1..] == NatToString(-n);
    } else {
      ParseNatToString(n);
      assert s == NatToString(n) && s[0] != '-';
    }
  }

  lemma IntToStringInjective(a: int, b: int)
    ensures IntToString(a) == IntToString(b) <==> a == b
  {
    IntToStringRoundTrip(a);
    IntToStringRoundTrip(b);
  }
}
