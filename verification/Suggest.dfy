/** Neighbour-density heat and the posts a folder may be offered. */
module Suggest {

  import opened Basics
  import opened Vectors
  import Mmr

  // ------------------------------------------------------------------------ heat

  /** `top` lists m distinct folder items nearest to a candidate, nearest first. */
  ghost predicate Nearest(sims: seq<real>, top: seq<nat>) {
    && Mmr.Indices(top, |sims|) && Distinct(top)
    && (forall i, j :: 0 <= i < j < |top| ==> sims[top[j]] <= sims[top[i]])
    && (forall i: nat, j :: i < |sims| && i !in top && 0 <= j < |top| ==> sims[i] <= sims[top[j]])
  }

  ghost predicate PositiveAt(weights: seq<real>, top: seq<nat>) {
    forall j :: 0 <= j < |top| ==> top[j] < |weights| && weights[top[j]] > 0.0
  }

  function WeightSum(weights: seq<real>, top: seq<nat>): (r: real)
    requires PositiveAt(weights, top)
    ensures r >= 0.0 && (top != [] ==> r > 0.0)
  {
    if top == [] then 0.0 else weights[top[0]] + WeightSum(weights, top[1..])
  }

  function WeightedSum(sims: seq<real>, weights: seq<real>, top: seq<nat>): real
    requires PositiveAt(weights, top) && Mmr.Indices(top, |sims|)
  {
    if top == [] then 0.0 else sims[top[0]] * weights[top[0]] + WeightedSum(sims, weights, top[1..])
  }

  /** Weighted mean similarity to the chosen neighbours. */
  function Heat(sims: seq<real>, weights: seq<real>, top: seq<nat>): real
    requires top != [] && PositiveAt(weights, top) && Mmr.Indices(top, |sims|)
  {
    WeightedSum(sims, weights, top) / WeightSum(weights, top)
  }

  /** A sum that stays between lo and hi times its total weight. */
  ghost predicate Between(lo: real, hi: real, weight: real, sum: real) {
    lo * weight <= sum <= hi * weight
  }

  lemma {:induction false} WeightedSumBetween(sims: seq<real>, weights: seq<real>, top: seq<nat>, lo: real, hi: real)
    requires PositiveAt(weights, top) && Mmr.Indices(top, |sims|)
    requires forall j :: 0 <= j < |top| ==> lo <= sims[top[j]] <= hi
    ensures Between(lo, hi, WeightSum(weights, top), WeightedSum(sims, weights, top))
  {
    hide Between;
    if top == [] {
      NothingBetween(lo, hi);
    } else {
      assert forall j :: 0 <= j < |top[1..]| ==> top[1..][j] == top[j + 1];
      WeightedSumBetween(sims, weights, top[1..], lo, hi);
      var (s, w) := (sims[top[0]], weights[top[0]]);
      FoldIn(lo, s, hi, w, s * w, WeightSum(weights, top[1..]), WeightedSum(sims, weights, top[1..]),
             WeightSum(weights, top), WeightedSum(sims, weights, top));
    }
  }

  lemma NothingBetween(lo: real, hi: real)
    ensures Between(lo, hi, 0.0, 0.0)
  {
  }

  lemma FoldIn(lo: real, s: real, hi: real, w: real, sw: real, rest: real, sum: real, weight: real, total: real)
    requires lo <= s <= hi && w > 0.0 && sw == s * w && Between(lo, hi, rest, sum)
    requires weight == w + rest && total == sw + sum
    ensures Between(lo, hi, weight, total)
  {
    Scale(w, lo, s);
    Scale(w, s, hi);
    assert lo * (w + rest) == w * lo + lo * rest;
    assert hi * (w + rest) == w * hi + hi * rest;
  }

  lemma QuotientBetween(p: real, q: real, lo: real, hi: real)
    requires q > 0.0 && Between(lo, hi, q, p)
    ensures lo <= p / q <= hi
  {
    var r := p / q;
    assert r * q == p;
    CancelLess(lo, r, q);
    CancelLess(r, hi, q);
  }

  /** Heat lies between the least and the greatest similarity of the chosen neighbours,
      and never above the candidate's best similarity to the folder. */
  lemma HeatBetween(sims: seq<real>, weights: seq<real>, top: seq<nat>)
    requires top != [] && Nearest(sims, top) && PositiveAt(weights, top)
    ensures sims[top[|top| - 1]] <= Heat(sims, weights, top) <= sims[top[0]]
    ensures forall i :: 0 <= i < |sims| ==> sims[i] <= sims[top[0]]
  {
    hide Between, WeightedSum;
    var (lo, hi) := (sims[top[|top| - 1]], sims[top[0]]);
    WeightedSumBetween(sims, weights, top, lo, hi);
    QuotientBetween(WeightedSum(sims, weights, top), WeightSum(weights, top), lo, hi);
    forall i: nat | i < |sims| ensures sims[i] <= sims[top[0]] {
      if i in top {
        var j :| 0 <= j < |top| && top[j] == i;
      }
    }
  }

  function PlainSum(sims: seq<real>, picked: seq<nat>): real
    requires Mmr.Indices(picked, |sims|)
  {
    if picked == [] then 0.0 else PlainSum(sims, picked[..|picked| - 1]) + sims[picked[|picked| - 1]]
  }

  lemma {:induction false} PlainSumWithout(sims: seq<real>, picked: seq<nat>, j: nat)
    requires Mmr.Indices(picked, |sims|) && j < |picked|
    ensures PlainSum(sims, picked) == PlainSum(sims, picked[..j] + picked[j + 1..]) + sims[picked[j]]
    decreases |picked|
  {
    var n := |picked| - 1;
    if j == n {
      assert picked[..j] + picked[j + 1..] == picked[..n];
    } else {
      PlainSumWithout(sims, picked[..n], j);
      var rest := picked[..j] + picked[j + 1..];
      assert rest[..n - 1] == picked[..n][..j] + picked[..n][j + 1..];
    }
  }

  lemma {:induction false} OutsideShorter(longer: seq<nat>, shorter: seq<nat>) returns (j: nat)
    requires Distinct(longer) && |shorter| < |longer|
    ensures j < |longer| && longer[j] !in shorter
    decreases |longer|
  {
    var n := |longer| - 1;
    if longer[n] !in shorter {
      return n;
    }
    var k :| 0 <= k < |shorter| && shorter[k] == longer[n];
    var rest := shorter[..k] + shorter[k + 1..];
    j := OutsideShorter(longer[..n], rest);
  }

  lemma NearestPrefix(sims: seq<real>, top: seq<nat>)
    requires Nearest(sims, top) && top != []
    ensures Nearest(sims, top[..|top| - 1])
    ensures forall o: nat :: o < |sims| && o !in top[..|top| - 1] ==> sims[o] <= sims[top[|top| - 1]]
  {
    var n := |top| - 1;
    forall o: nat, q | o < |sims| && o !in top[..n] && 0 <= q < |top|
      ensures sims[o] <= sims[top[q]]
    {
      if o in top {
        assert o == top[n];
      }
    }
  }

  lemma Without(other: seq<nat>, j: nat, n: nat)
    requires Mmr.Indices(other, n) && Distinct(other) && j < |other|
    ensures Mmr.Indices(other[..j] + other[j + 1..], n) && Distinct(other[..j] + other[j + 1..])
  {}

  /** With equal weights, no other m folder items have a greater mean: the estimate
      does not depend on how the nearest m were found. */
  lemma {:induction false} NearestIsGreatestSum(sims: seq<real>, top: seq<nat>, other: seq<nat>)
    requires Nearest(sims, top) && Mmr.Indices(other, |sims|) && Distinct(other) && |other| == |top|
    ensures PlainSum(sims, other) <= PlainSum(sims, top)
  {
    if top == [] {
      assert other == [];
    } else {
      var n := |top| - 1;
      NearestPrefix(sims, top);
      var j := OutsideShorter(other, top[..n]);
      Without(other, j, |sims|);
      PlainSumWithout(sims, other, j);
      PlainSumWithout(sims, top, n);
      assert top[..n] + top[n + 1..] == top[..n];
      hide *;
      NearestIsGreatestSum(sims, top[..n], other[..j] + other[j + 1..]) by {
        assert |other[..j] + other[j + 1..]| == |top[..n]|;
      }
      assert sims[other[j]] <= sims[top[n]];
    }
  }

  lemma {:induction false} WeightSumIs(weights: seq<real>, top: seq<nat>, f: nat -> real)
    requires PositiveAt(weights, top) && forall j: nat :: j < |top| ==> f(j) == weights[top[j]]
    ensures WeightSum(weights, top) == Sum(|top|, f)
  {
    if top != [] {
      var g := (j: nat) => f(j + 1);
      WeightSumIs(weights, top[1..], g);
      SumFirst(|top|, f, g);
    }
  }

  lemma {:induction false} WeightedSumIs(sims: seq<real>, weights: seq<real>, top: seq<nat>, n: nat, f: nat -> real)
    requires PositiveAt(weights, top) && Mmr.Indices(top, |sims|) && n <= |top|
    requires forall j: nat :: n <= j < |top| ==> f(j - n) == sims[top[j]] * weights[top[j]]
    ensures WeightedSum(sims, weights, top[n..]) == Sum(|top| - n, f)
    decreases |top| - n
  {
    if n < |top| {
      var g := (j: nat) => f(j + 1);
      WeightedSumIs(sims, weights, top, n + 1, g);
      SumFirst(|top| - n, f, g);
      assert top[n..][1..] == top[n + 1..] && f(0) == sims[top[n]] * weights[top[n]];
    }
  }

  /** Heat is the weighted mean: with w the weights and f the weighted similarities of the neighbours, heat
      times the sum of w is the sum of f. */
  lemma HeatIsWeightedMean(sims: seq<real>, weights: seq<real>, top: seq<nat>, w: nat -> real, f: nat -> real)
    requires top != [] && PositiveAt(weights, top) && Mmr.Indices(top, |sims|)
    requires forall j: nat :: j < |top| ==> w(j) == weights[top[j]] && f(j) == sims[top[j]] * weights[top[j]]
    ensures IsMean(Heat(sims, weights, top), Sum(|top|, w), Sum(|top|, f))
  {
    WeightSumIs(weights, top, w);
    WeightedSumIs(sims, weights, top, 0, f);
    assert top[0..] == top;
    hide *;
    HeatIsQuotient(sims, weights, top);
  }

  lemma HeatIsQuotient(sims: seq<real>, weights: seq<real>, top: seq<nat>)
    requires top != [] && PositiveAt(weights, top) && Mmr.Indices(top, |sims|)
    ensures IsMean(Heat(sims, weights, top), WeightSum(weights, top), WeightedSum(sims, weights, top))
  {
    hide WeightSum, WeightedSum, IsMean;
    QuotientTimes(WeightedSum(sims, weights, top), WeightSum(weights, top));
  }

  // ------------------------------------------------------------ density of one candidate

  /** How many neighbours count: at least one, at most all. */
  function HowMany(knn: int, n: nat): (m: int)
    ensures m >= 1 && (m <= n || m == 1) && (m <= knn || m == 1) && (m == knn || m == n || (m == 1 && (knn < 1 || n < 1)))
  {
    if knn < 1 || n < 1 then 1 else Smaller(knn, n)
  }

  ghost predicate AllPositive(weights: seq<real>) {
    forall i :: 0 <= i < |weights| ==> weights[i] > 0.0
  }

  /** The neighbours of one candidate, nearest first, and their weighted mean similarity. */
  method Density(sims: seq<real>, knn: int, weights: seq<real>) returns (top: seq<nat>, heat: real)
    requires sims != [] && |weights| == |sims| && AllPositive(weights)
    ensures |top| == HowMany(knn, |sims|) && Nearest(sims, top) && PositiveAt(weights, top)
    ensures heat == Heat(sims, weights, top)
    ensures sims[top[|top| - 1]] <= heat <= sims[top[0]]
  {
    hide Mmr.Greedy, WeightedSum;
    var none: Mmr.Sim := (i: nat, j: nat) => 0.0;
    top := Mmr.Pick(sims, none, Mmr.TradeOff(1.0), HowMany(knn, |sims|));
    Mmr.PureHeatIsTopK(sims, none, top);
    assert Nearest(sims, top) && PositiveAt(weights, top);
    HeatBetween(sims, weights, top);
    heat := Heat(sims, weights, top);
  }

  /** m is the greatest of the numbers, or zero if none is above it. */
  ghost predicate IsHighest(sims: seq<real>, m: real) {
    m >= 0.0 && (forall i :: 0 <= i < |sims| ==> sims[i] <= m) && (m == 0.0 || m in sims)
  }

  function Highest(sims: seq<real>): (r: real)
    ensures IsHighest(sims, r)
  {
    if sims == [] then 0.0
    else
      var n := |sims| - 1;
      var rest := Highest(sims[..n]);
      assert forall i :: 0 <= i < n ==> sims[..n][i] == sims[i];
      if sims[n] > rest then sims[n] else rest
  }

  /** A share of the similarity to the closest avoided story; nothing when none is avoided or near. */
  function AvoidPenalty(sims: seq<real>, strength: real): (r: real)
    ensures strength >= 0.0 ==> r >= 0.0
    ensures sims == [] ==> r == 0.0
    ensures exists m :: IsHighest(sims, m) && r == strength * m
  {
    var most := Highest(sims);
    if strength >= 0.0 then Scale(most, 0.0, strength); strength * most else strength * most
  }
}
