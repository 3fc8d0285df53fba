/** Bytes, byte strings and the key order of `std::map<string, _>` and `std::set`. */
module Bytes {

  type Byte = b: int | 0 <= b < 256

  /** A C++ `std::string`: any bytes, compared as unsigned characters. */
  type Str = seq<Byte>

  /** The cast `(char)n`. */
  function ToByte(n: int): Byte { n % 256 }

  /** Reading a (signed) `char` back as an `int`. */
  function SignedChar(b: Byte): int { if b < 128 then b else b - 256 }

  function Min(a: int, b: int): int { if a <= b then a else b }

  function Max(a: int, b: int): int { if a <= b then b else a }

  /** `string::substr(pos, len)`, which stops at the end of the string. */
  function Substr(s: Str, pos: nat, len: nat): Str
    requires pos <= |s|
  {
    s[pos..Min(pos + len, |s|)]
  }

  predicate LexLe(a: Str, b: Str) {
    |a| == 0 || (|b| > 0 && (a[0] < b[0] || (a[0] == b[0] && LexLe(a[1..], b[1..]))))
  }

  lemma LexTotal(a: Str, b: Str)
    ensures LexLe(a, b) || LexLe(b, a)
  {
  }

  lemma LexAntisymmetric(a: Str, b: Str)
    requires LexLe(a, b) && LexLe(b, a)
    ensures a == b
  {
    if |a| > 0 {
      LexAntisymmetric(a[1..], b[1..]);
      assert a == [a[0]] + a[1..] && b == [b[0]] + b[1..];
    }
  }

  lemma LexTransitive(a: Str, b: Str, c: Str)
    requires LexLe(a, b) && LexLe(b, c)
    ensures LexLe(a, c)
  {
    if |a| > 0 && a[0] == b[0] == c[0] {
      LexTransitive(a[1..], b[1..], c[1..]);
    }
  }

  ghost predicate IsLeast(k: Str, s: set<Str>) {
    k in s && forall x | x in s :: LexLe(k, x)
  }

  lemma LeastExists(s: set<Str>) returns (k: Str)
    requires s != {}
    ensures IsLeast(k, s)
  {
    var e :| e in s;
    if s == {e} {
      LexTotal(e, e);
      k := e;
    } else {
      assert s - {e} != {};
      var m := LeastExists(s - {e});
      LexTotal(e, m);
      k := if LexLe(e, m) then e else m;
      LexTotal(k, k);
      forall x | x in s ensures LexLe(k, x) {
        if x != e && k == e { LexTransitive(e, m, x); }
      }
    }
  }

  /** The key an ordered container visits first. */
  method LeastKey(s: set<Str>) returns (k: Str)
    requires s != {}
    ensures IsLeast(k, s)
  {
    k :| k in s;
    LexTotal(k, k);
    var rest := s - {k};
    while rest != {}
      invariant rest <= s && k in s && LexLe(k, k)
      invariant forall x | x in s - rest :: LexLe(k, x)
    {
      var x :| x in rest;
      LexTotal(k, x);
      LexTotal(x, x);
      if !LexLe(k, x) {
        forall y | y in s - rest ensures LexLe(x, y) { LexTransitive(x, k, y); }
        k := x;
      }
      rest := rest - {x};
    }
  }

  /** `order` visits each element of s once. */
  ghost predicate Lists(order: seq<Str>, s: set<Str>) {
    && (forall i, j | 0 <= i < j < |order| :: order[i] != order[j])
    && (forall x :: x in order <==> x in s)
  }

  ghost predicate Sorted(order: seq<Str>) {
    forall i, j | 0 <= i < j < |order| :: LexLe(order[i], order[j])
  }

  /** The iteration order of a `std::set` or `std::map`. */
  method KeysInOrder(s: set<Str>) returns (order: seq<Str>)
    ensures Lists(order, s) && Sorted(order)
  {
    order := [];
    var rest := s;
    while rest != {}
      invariant rest <= s && Lists(order, s - rest) && Sorted(order)
      invariant forall x, y | x in order && y in rest :: LexLe(x, y)
    {
      var k := LeastKey(rest);
      assert forall x :: x in order + [k] <==> x in order || x == k;
      order := order + [k];
      rest := rest - {k};
    }
    assert s - {} == s;
  }

  lemma {:induction false} ListLength(order: seq<Str>, s: set<Str>)
    requires Lists(order, s)
    ensures |order| == |s|
    decreases |order|
  {
    if order == [] {
      assert s == {};
    } else {
      var k := order[0];
      assert k in s;
      assert order == [k] + order[1..];
      assert forall i | 0 <= i < |order[1..]| :: order[1..][i] == order[i + 1] != k;
      ListLength(order[1..], s - {k});
    }
  }
}
