/** Exact-real vector arithmetic behind folder scoring: dot products, row
    normalisation and the Cauchy-Schwarz bound on the unit sphere. */
module Vectors {

  type Vec = seq<real>

  function Dot(a: Vec, b: Vec): real
    requires |a| == |b|
  {
    if a == [] then 0.0 else a[0] * b[0] + Dot(a[1..], b[1..])
  }

  function Zero(d: nat): Vec {
    seq(d, _ => 0.0)
  }

  function Plus(a: Vec, b: Vec): Vec
    requires |a| == |b|
  {
    seq(|a|, i requires 0 <= i < |a| => a[i] + b[i])
  }

  /** Division of a vector by a non-zero number. */
  function Over(a: Vec, r: real): Vec
    requires r != 0.0
  {
    seq(|a|, i requires 0 <= i < |a| => a[i] / r)
  }

  /** f(0) + ... + f(n - 1). */
  function Sum(n: nat, f: nat -> real): real {
    if n == 0 then 0.0 else Sum(n - 1, f) + f(n - 1)
  }

  lemma {:induction false} SumSame(n: nat, f: nat -> real, g: nat -> real)
    requires forall i: nat :: i < n ==> f(i) == g(i)
    ensures Sum(n, f) == Sum(n, g)
  {
    if n > 0 {
      SumSame(n - 1, f, g);
    }
  }

  /** The first term taken off. */
  lemma {:induction false} SumFirst(n: nat, f: nat -> real, g: nat -> real)
    requires n > 0 && forall i: nat :: i < n - 1 ==> g(i) == f(i + 1)
    ensures Sum(n, f) == f(0) + Sum(n - 1, g)
  {
    if n > 1 {
      SumFirst(n - 1, f, g);
    }
  }

  lemma {:induction false} SumSign(n: nat, f: nat -> real)
    ensures n > 0 && (forall i: nat :: i < n ==> f(i) > 0.0) ==> Sum(n, f) > 0.0
    ensures n > 0 && (forall i: nat :: i < n ==> f(i) < 0.0) ==> Sum(n, f) < 0.0
  {
    if n > 1 {
      SumSign(n - 1, f);
    }
  }

  ghost predicate IsMean(mean: real, size: real, total: real) {
    mean * size == total
  }

  lemma QuotientTimes(p: real, q: real)
    requires q > 0.0
    ensures IsMean(p / q, q, p)
  {}

  /** Every row has width d. */
  ghost predicate Matrix(x: seq<Vec>, d: nat) {
    forall i :: 0 <= i < |x| ==> |x[i]| == d
  }

  /** Rows lie in the closed unit ball: what row normalisation guarantees. */
  ghost predicate UnitRows(x: seq<Vec>) {
    forall i :: 0 <= i < |x| ==> Dot(x[i], x[i]) <= 1.0
  }

  /** The Euclidean norm, described by what characterises it. */
  ghost predicate IsNorm(norm: Vec -> real) {
    forall v: Vec {:trigger norm(v)} :: norm(v) >= 0.0 && norm(v) * norm(v) == Dot(v, v)
  }

  /** A row divided by its norm; a row of norm zero is left alone. */
  function Normalise(norm: Vec -> real, v: Vec): (u: Vec)
    ensures |u| == |v|
  {
    if norm(v) == 0.0 then v else Over(v, norm(v))
  }

  function NormaliseRows(norm: Vec -> real, x: seq<Vec>): (y: seq<Vec>)
    ensures |y| == |x|
    ensures forall i :: 0 <= i < |x| ==> |y[i]| == |x[i]|
  {
    seq(|x|, i requires 0 <= i < |x| => Normalise(norm, x[i]))
  }

  lemma {:induction false} DotCommutes(a: Vec, b: Vec)
    requires |a| == |b|
    ensures Dot(a, b) == Dot(b, a)
  {
    if a != [] {
      DotCommutes(a[1..], b[1..]);
    }
  }

  lemma {:induction false} DotZero(d: nat, v: Vec)
    requires |v| == d
    ensures Dot(Zero(d), v) == 0.0
  {
    if d > 0 {
      assert Zero(d)[1..] == Zero(d - 1);
      DotZero(d - 1, v[1..]);
    }
  }

  lemma {:induction false} DotPlus(a: Vec, b: Vec, v: Vec)
    requires |a| == |b| == |v|
    ensures Dot(Plus(a, b), v) == Dot(a, v) + Dot(b, v)
  {
    if a != [] {
      assert Plus(a, b)[1..] == Plus(a[1..], b[1..]);
      DotPlus(a[1..], b[1..], v[1..]);
      assert (a[0] + b[0]) * v[0] == a[0] * v[0] + b[0] * v[0];
    }
  }

  lemma {:induction false} DotOver(a: Vec, r: real, v: Vec)
    requires |a| == |v| && r != 0.0
    ensures Dot(Over(a, r), v) * r == Dot(a, v)
  {
    if a != [] {
      assert Over(a, r)[1..] == Over(a[1..], r);
      DotOver(a[1..], r, v[1..]);
      var q := a[0] / r;
      var rest := Dot(Over(a[1..], r), v[1..]);
      assert q * r == a[0];
      assert (q * v[0] + rest) * r == (q * r) * v[0] + rest * r;
    }
  }

  lemma {:induction false} DotSelfNonNegative(a: Vec)
    ensures Dot(a, a) >= 0.0
  {
    if a != [] {
      DotSelfNonNegative(a[1..]);
      assert a[0] * a[0] >= 0.0;
    }
  }

  /** |s - t c|^2 in terms of the three dot products. */
  function Quadratic(ss: real, sc: real, cc: real, t: real): real {
    ss - 2.0 * t * sc + t * t * cc
  }

  lemma {:induction false} SquaredDifference(s: Vec, c: Vec, t: real)
    requires |s| == |c|
    ensures Quadratic(Dot(s, s), Dot(s, c), Dot(c, c), t) >= 0.0
  {
    hide Quadratic;
    if s == [] {
      QuadraticZero(t);
    } else {
      SquaredDifference(s[1..], c[1..], t);
      DotCons(s, s);
      DotCons(s, c);
      DotCons(c, c);
      hide Dot;
      var (p, q) := (s[0], c[0]);
      var (ss, sc, cc) := (Dot(s[1..], s[1..]), Dot(s[1..], c[1..]), Dot(c[1..], c[1..]));
      AddSquare(p, q, t, p * p, p * q, q * q, ss, sc, cc);
      SameQuadratic(p * p + ss, p * q + sc, q * q + cc, Dot(s, s), Dot(s, c), Dot(c, c), t);
    }
  }

  lemma SameQuadratic(a: real, b: real, c: real, a': real, b': real, c': real, t: real)
    requires a == a' && b == b' && c == c'
    ensures Quadratic(a, b, c, t) == Quadratic(a', b', c', t)
  {
  }

  lemma QuadraticIs(ss: real, sc: real, cc: real, t: real)
    ensures Quadratic(ss, sc, cc, t) == ss - 2.0 * t * sc + t * t * cc
  {
  }

  lemma QuadraticZero(t: real)
    ensures Quadratic(0.0, 0.0, 0.0, t) == 0.0
  {
  }

  lemma DotCons(a: Vec, b: Vec)
    requires |a| == |b| && a != []
    ensures Dot(a, b) == a[0] * b[0] + Dot(a[1..], b[1..])
  {
  }

  lemma AddSquare(p: real, q: real, t: real, pp: real, pq: real, qq: real, ss: real, sc: real, cc: real)
    requires pp == p * p && pq == p * q && qq == q * q && Quadratic(ss, sc, cc, t) >= 0.0
    ensures Quadratic(pp + ss, pq + sc, qq + cc, t) >= 0.0
  {
    SquareExpands(p, q, t);
    assert pp - 2.0 * t * pq + t * t * qq >= 0.0;
    SumOfQuadratics(pp, pq, qq, ss, sc, cc, t);
  }

  lemma SumOfQuadratics(pp: real, pq: real, qq: real, ss: real, sc: real, cc: real, t: real)
    ensures Quadratic(pp + ss, pq + sc, qq + cc, t) == Quadratic(pp, pq, qq, t) + Quadratic(ss, sc, cc, t)
  {
  }

  lemma SquareExpands(p: real, q: real, t: real)
    ensures p * p - 2.0 * t * (p * q) + t * t * (q * q) >= 0.0
  {
    var r := p - t * q;
    assert r * r >= 0.0;
    assert r * r == p * p - 2.0 * t * (p * q) + t * t * (q * q);
  }

  lemma Positive(a: real, b: real)
    requires a > 0.0 && b > 0.0
    ensures a * b > 0.0
  {}

  lemma Scale(k: real, a: real, b: real)
    requires k >= 0.0 && a <= b
    ensures k * a <= k * b
  {}

  lemma Cancel(a: real, b: real, r: real)
    requires r != 0.0 && a * r == b * r
    ensures a == b
  {}

  lemma CancelLess(a: real, b: real, r: real)
    requires r > 0.0 && r * a <= r * b
    ensures a <= b
  {
    if a > b {
      Positive(r, a - b);
    }
  }

  lemma {:induction false} ZeroLength(s: Vec, c: Vec)
    requires |s| == |c| && Dot(s, s) == 0.0
    ensures Dot(s, c) == 0.0
  {
    if s != [] {
      DotSelfNonNegative(s[1..]);
      SquareZero(s[0], Dot(s[1..], s[1..]));
      ZeroLength(s[1..], c[1..]);
    }
  }

  lemma SquareZero(p: real, rest: real)
    requires p * p + rest == 0.0 && rest >= 0.0
    ensures p == 0.0
  {
    SignsDiffer(p, p);
  }

  /** Two factors with a non-positive product are not both on one side of zero. */
  lemma SignsDiffer(p: real, q: real)
    requires p * q <= 0.0
    ensures p <= 0.0 || q <= 0.0
    ensures p >= 0.0 || q >= 0.0
  {}

  /** Cauchy-Schwarz against a vector of the unit ball. */
  lemma CauchySchwarz(s: Vec, c: Vec, r: real)
    requires |s| == |c| && r >= 0.0 && r * r == Dot(s, s) && Dot(c, c) <= 1.0
    ensures Dot(s, c) <= r
  {
    hide Dot, Quadratic;
    if r == 0.0 {
      ZeroLength(s, c);
    } else {
      SquaredDifference(s, c, r);
      QuadraticIs(Dot(s, s), Dot(s, c), Dot(c, c), r);
      BoundFromSquares(Dot(s, s), Dot(s, c), Dot(c, c), r);
    }
  }

  /** The arithmetic of Cauchy-Schwarz: the expanded square of `s - r c`. */
  lemma BoundFromSquares(ss: real, p: real, cc: real, r: real)
    requires r > 0.0 && cc <= 1.0 && r * r == ss
    requires ss - 2.0 * r * p + r * r * cc >= 0.0
    ensures p <= r
  {
    Positive(r, r);
    Scale(r * r, cc, 1.0);
    CancelLess(p, r, r);
  }

  lemma UnitArithmetic(vv: real, uv: real, uu: real, r: real)
    requires r != 0.0 && r * r == vv && uv * r == vv && uu * r == uv
    ensures uv == r && uu == 1.0
  {
    Cancel(uv, r, r);
    Cancel(uu, 1.0, r);
  }

  /** A vector divided by its (non-zero) length. */
  lemma UnitFacts(v: Vec, r: real)
    requires r != 0.0 && r * r == Dot(v, v)
    ensures Dot(v, Over(v, r)) == r && Dot(Over(v, r), Over(v, r)) == 1.0
  {
    var u := Over(v, r);
    DotOver(v, r, v);
    DotCommutes(v, u);
    DotOver(v, r, u);
    UnitArithmetic(Dot(v, v), Dot(u, v), Dot(u, u), r);
  }

  lemma NormAt(norm: Vec -> real, v: Vec)
    requires IsNorm(norm)
    ensures norm(v) >= 0.0 && norm(v) * norm(v) == Dot(v, v)
  {}

  lemma NormBound(norm: Vec -> real, s: Vec, c: Vec)
    requires IsNorm(norm) && |s| == |c| && Dot(c, c) <= 1.0
    ensures Dot(s, c) <= norm(s)
  {
    NormAt(norm, s);
    CauchySchwarz(s, c, norm(s));
  }

  /** A normalised row lies in the unit ball and points along the original. */
  lemma NormaliseFacts(norm: Vec -> real, v: Vec)
    requires IsNorm(norm)
    ensures Dot(Normalise(norm, v), Normalise(norm, v)) <= 1.0
    ensures Dot(v, Normalise(norm, v)) == norm(v)
  {
    NormAt(norm, v);
    if norm(v) == 0.0 {
      assert Dot(v, v) == 0.0;
    } else {
      UnitFacts(v, norm(v));
    }
  }

  lemma NormaliseRowsFacts(norm: Vec -> real, x: seq<Vec>)
    requires IsNorm(norm)
    ensures UnitRows(NormaliseRows(norm, x))
  {
    forall i | 0 <= i < |x|
      ensures Dot(NormaliseRows(norm, x)[i], NormaliseRows(norm, x)[i]) <= 1.0
    {
      NormaliseFacts(norm, x[i]);
    }
  }
}
