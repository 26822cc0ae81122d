/** Java `int` arithmetic and `String.hashCode`, as used by the `hashCode` methods of
    UserSession and Participant. Every `int` operation in Java wraps around modulo 2^32;
    `Wrap` makes that explicit. */
module JavaHash {

  const TWO_32: int := 0x1_0000_0000
  const INT_MIN: int := -0x8000_0000
  const INT_MAX: int := 0x7FFF_FFFF

  predicate IsInt32(x: int) {
    INT_MIN <= x <= INT_MAX
  }

  /** The Java `int` congruent to `x` modulo 2^32. */
  function Wrap(x: int): (r: int)
    ensures IsInt32(r)
    ensures (x - r) % TWO_32 == 0
    ensures IsInt32(x) ==> r == x
  {
    var m := x % TWO_32;
    if m > INT_MAX then m - TWO_32 else m
  }

  /** Two integers congruent modulo 2^32 denote the same Java `int`. */
  lemma WrapCongruent(x: int, y: int)
    requires (x - y) % TWO_32 == 0
    ensures Wrap(x) == Wrap(y)
  {
    var k := (x - y) / TWO_32;
    assert x == y + k * TWO_32;
    assert x % TWO_32 == y % TWO_32;
  }

  /** Scaling preserves congruence modulo 2^32. */
  lemma ScaleCongruent(a: int, b: int, f: int)
    requires (a - b) % TWO_32 == 0
    ensures (f * a - f * b) % TWO_32 == 0
  {
    var k := (a - b) / TWO_32;
    assert a - b == k * TWO_32;
    assert f * a - f * b == (f * k) * TWO_32;
  }

  /** Sums of congruent pairs are congruent modulo 2^32. */
  lemma SumCongruent(a: int, b: int, c: int, d: int)
    requires (a - b) % TWO_32 == 0 && (c - d) % TWO_32 == 0
    ensures ((a + c) - (b + d)) % TWO_32 == 0
  {
    var k := (a - b) / TWO_32;
    var l := (c - d) / TWO_32;
    assert a - b == k * TWO_32;
    assert c - d == l * TWO_32;
    assert (a + c) - (b + d) == (k + l) * TWO_32;
  }

  function Pow31(n: nat): nat {
    if n == 0 then 1 else 31 * Pow31(n - 1)
  }

  /** The hash of a string as Java documents it, evaluated exactly:
      s[0]*31^(n-1) + s[1]*31^(n-2) + ... + s[n-1]. */
  function Polynomial(s: string): int {
    if s == [] then 0 else (s[0] as int) * Pow31(|s| - 1) + Polynomial(s[1..])
  }

  /** `String.hashCode` as the JDK computes it: `h = 31 * h + c` over the characters,
      in `int` arithmetic. Characters are taken by their code point. */
  function StringHash(s: string): (h: int)
    ensures IsInt32(h)
  {
    if s == [] then 0 else Wrap(31 * StringHash(s[..|s| - 1]) + (s[|s| - 1] as int))
  }

  /** Appending a character multiplies the exact polynomial by 31 and adds the character. */
  lemma {:induction false} PolynomialSnoc(s: string, c: char)
    ensures Polynomial(s + [c]) == 31 * Polynomial(s) + (c as int)
  {
    if s == [] {
      assert [c][1..] == [];
    } else {
      var t := s + [c];
      assert t[0] == s[0];
      assert t[1..] == s[1..] + [c];
      PolynomialSnoc(s[1..], c);
      var x := s[0] as int;
      var p := Pow31(|s| - 1);
      assert Pow31(|t| - 1) == 31 * p;
      assert x * (31 * p) == 31 * (x * p);
    }
  }

  /** The wrapping computation yields the documented polynomial reduced to a Java `int`. */
  lemma {:induction false} StringHashIsPolynomial(s: string)
    ensures StringHash(s) == Wrap(Polynomial(s))
  {
    if s != [] {
      var t := s[..|s| - 1];
      var c := s[|s| - 1];
      assert s == t + [c];
      StringHashIsPolynomial(t);
      PolynomialSnoc(t, c);
      var h := StringHash(t);
      var p := Polynomial(t);
      assert (p - h) % TWO_32 == 0;
      ScaleCongruent(p, h, 31);
      assert ((31 * p + (c as int)) - (31 * h + (c as int))) % TWO_32 == 0;
      WrapCongruent(31 * p + (c as int), 31 * h + (c as int));
    }
  }

  /** The `hashCode` of a class over two string fields:
      `result = 1; result = 31 * result + a.hashCode(); result = 31 * result + b.hashCode();`
      — equal to the exact value 31^2 + 31*hash(a) + hash(b), reduced to a Java `int`. */
  function FieldPairHash(a: string, b: string): (h: int)
    ensures IsInt32(h)
    ensures h == Wrap(31 * 31 + 31 * Polynomial(a) + Polynomial(b))
  {
    var first := Wrap(31 * 1 + StringHash(a));
    var hb := StringHash(b);
    StringHashIsPolynomial(a);
    StringHashIsPolynomial(b);
    var pa, pb := Polynomial(a), Polynomial(b);
    SumCongruent(31 + pa, 31 + StringHash(a), 31 + StringHash(a), first);
    ScaleCongruent(31 + pa, first, 31);
    SumCongruent(31 * (31 + pa), 31 * first, pb, hb);
    assert 31 * (31 + pa) + pb == 31 * 31 + 31 * pa + pb;
    WrapCongruent(31 * 31 + 31 * pa + pb, 31 * first + hb);
    Wrap(31 * first + hb)
  }
}
