/** Spherical k-means over the folder's vectors. The total best similarity never
    falls from one iteration to the next, re-seeded empty clusters included. */
module KMeans {

  import opened Basics
  import opened Vectors

  type Labels = seq<int>

  ghost predicate InRange(labels: Labels, k: nat) {
    forall i :: 0 <= i < |labels| ==> 0 <= labels[i] < k
  }

  /** Index of the first centroid with the greatest similarity to v (argmax). */
  function BestIndex(v: Vec, cents: seq<Vec>): (r: nat)
    requires cents != [] && Matrix(cents, |v|)
    ensures r < |cents|
    ensures forall c :: 0 <= c < |cents| ==> Dot(v, cents[c]) <= Dot(v, cents[r])
    ensures forall c :: 0 <= c < r ==> Dot(v, cents[c]) < Dot(v, cents[r])
  {
    ArgMax(Sims(v, cents))
  }

  function Sims(v: Vec, cents: seq<Vec>): (s: seq<real>)
    requires Matrix(cents, |v|)
    ensures |s| == |cents| && forall c :: 0 <= c < |cents| ==> s[c] == Dot(v, cents[c])
  {
    seq(|cents|, c requires 0 <= c < |cents| => Dot(v, cents[c]))
  }

  /** The first position of the greatest number. */
  function ArgMax(s: seq<real>): (r: nat)
    requires s != []
    ensures r < |s|
    ensures forall i :: 0 <= i < |s| ==> s[i] <= s[r]
    ensures forall i :: 0 <= i < r ==> s[i] < s[r]
  {
    var n := |s| - 1;
    if n == 0 then 0 else
      var r := ArgMax(s[..n]);
      assert forall i :: 0 <= i < n ==> s[..n][i] == s[i];
      if s[n] > s[r] then n else r
  }

  function Fit(v: Vec, cents: seq<Vec>): real
    requires cents != [] && Matrix(cents, |v|)
  {
    Dot(v, cents[BestIndex(v, cents)])
  }

  /** The score a run is judged by: the sum over items of the best similarity. */
  function Objective(x: seq<Vec>, cents: seq<Vec>, d: nat): real
    requires cents != [] && Matrix(cents, d) && Matrix(x, d)
  {
    if x == [] then 0.0 else Fit(x[0], cents) + Objective(x[1..], cents, d)
  }

  /** The total similarity of every item to the centroid it is labelled with. */
  ghost function Assigned(x: seq<Vec>, labels: Labels, cents: seq<Vec>, d: nat): real
    requires Matrix(cents, d) && Matrix(x, d) && |labels| == |x| && InRange(labels, |cents|)
  {
    if x == [] then 0.0
    else Dot(x[0], cents[labels[0]]) + Assigned(x[1..], labels[1..], cents, d)
  }

  function MemberSum(x: seq<Vec>, labels: Labels, c: int, d: nat): (s: Vec)
    requires Matrix(x, d) && |labels| == |x|
    ensures |s| == d
  {
    if x == [] then Zero(d)
    else
      var rest := MemberSum(x[1..], labels[1..], c, d);
      if labels[0] == c then Plus(x[0], rest) else rest
  }

  function BestLabels(x: seq<Vec>, cents: seq<Vec>, d: nat): (labels: Labels)
    requires cents != [] && Matrix(cents, d) && Matrix(x, d)
    ensures |labels| == |x| && InRange(labels, |cents|)
  {
    seq(|x|, i requires 0 <= i < |x| => BestIndex(x[i], cents))
  }

  /** The first item whose best similarity is least: where an empty cluster restarts. */
  function WorstFit(x: seq<Vec>, cents: seq<Vec>, d: nat): (w: nat)
    requires x != [] && cents != [] && Matrix(cents, d) && Matrix(x, d)
    ensures w < |x|
    ensures forall i :: 0 <= i < |x| ==> Fit(x[w], cents) <= Fit(x[i], cents)
    ensures forall i :: 0 <= i < w ==> Fit(x[w], cents) < Fit(x[i], cents)
  {
    ArgMax(Misfits(x, cents, d))
  }

  function Misfits(x: seq<Vec>, cents: seq<Vec>, d: nat): (s: seq<real>)
    requires cents != [] && Matrix(cents, d) && Matrix(x, d)
    ensures |s| == |x| && forall i :: 0 <= i < |x| ==> s[i] == -Fit(x[i], cents)
  {
    seq(|x|, i requires 0 <= i < |x| => -Fit(x[i], cents))
  }

  function NextCentroid(norm: Vec -> real, x: seq<Vec>, labels: Labels, cents: seq<Vec>, c: nat, d: nat): (v: Vec)
    requires x != [] && cents != [] && Matrix(cents, d) && Matrix(x, d)
    requires |labels| == |x| && c < |cents|
    ensures |v| == d
  {
    if c !in labels then x[WorstFit(x, cents, d)]
    else Normalise(norm, MemberSum(x, labels, c, d))
  }

  function NextCentroids(norm: Vec -> real, x: seq<Vec>, labels: Labels, cents: seq<Vec>, d: nat): (r: seq<Vec>)
    requires x != [] && cents != [] && Matrix(cents, d) && Matrix(x, d) && |labels| == |x|
    ensures |r| == |cents| && Matrix(r, d)
  {
    seq(|cents|, c requires 0 <= c < |cents| => NextCentroid(norm, x, labels, cents, c, d))
  }

  /** Up to n iterations from the given labels and centroids. */
  function Lloyd(norm: Vec -> real, x: seq<Vec>, labels: Labels, cents: seq<Vec>, d: nat, n: nat)
    : (r: (Labels, seq<Vec>))
    requires x != [] && cents != [] && Matrix(cents, d) && Matrix(x, d)
    ensures |r.1| == |cents| && Matrix(r.1, d)
    decreases n
  {
    if n == 0 then (labels, cents) else
      var labels' := BestLabels(x, cents, d);
      if labels' == labels then (labels, cents)
      else Lloyd(norm, x, labels', NextCentroids(norm, x, labels', cents, d), d, n - 1)
  }

  // ---------------------------------------------------------------- the proof

  lemma {:induction false} AssignedAtMostObjective(x: seq<Vec>, labels: Labels, cents: seq<Vec>, d: nat)
    requires cents != [] && Matrix(cents, d) && Matrix(x, d) && |labels| == |x| && InRange(labels, |cents|)
    ensures Assigned(x, labels, cents, d) <= Objective(x, cents, d)
  {
    if x != [] {
      AssignedAtMostObjective(x[1..], labels[1..], cents, d);
    }
  }

  lemma {:induction false} BestLabelsReachObjective(x: seq<Vec>, cents: seq<Vec>, d: nat)
    requires cents != [] && Matrix(cents, d) && Matrix(x, d)
    ensures Assigned(x, BestLabels(x, cents, d), cents, d) == Objective(x, cents, d)
  {
    if x != [] {
      assert BestLabels(x, cents, d)[1..] == BestLabels(x[1..], cents, d);
      BestLabelsReachObjective(x[1..], cents, d);
    }
  }

  /** Replacing one centroid moves the assigned total by that cluster's share alone. */
  lemma {:induction false} AssignedUpdate(x: seq<Vec>, labels: Labels, cents: seq<Vec>, c: nat, v: Vec, d: nat)
    requires Matrix(cents, d) && Matrix(x, d) && |labels| == |x| && InRange(labels, |cents|)
    requires c < |cents| && |v| == d
    ensures Assigned(x, labels, cents[c := v], d) - Assigned(x, labels, cents, d)
         == Dot(MemberSum(x, labels, c, d), v) - Dot(MemberSum(x, labels, c, d), cents[c])
  {
    if x == [] {
      DotZero(d, v);
      DotZero(d, cents[c]);
    } else {
      AssignedUpdate(x[1..], labels[1..], cents, c, v, d);
      if labels[0] == c {
        var rest := MemberSum(x[1..], labels[1..], c, d);
        DotPlus(x[0], rest, v);
        DotPlus(x[0], rest, cents[c]);
      }
    }
  }

  lemma {:induction false} NoMembersSumToZero(x: seq<Vec>, labels: Labels, c: int, d: nat)
    requires Matrix(x, d) && |labels| == |x| && c !in labels
    ensures MemberSum(x, labels, c, d) == Zero(d)
  {
    if x != [] {
      NoMembersSumToZero(x[1..], labels[1..], c, d);
    }
  }

  /** No vector of the unit ball is more similar to s than s normalised. */
  lemma NormalisedIsClosest(norm: Vec -> real, s: Vec, c: Vec)
    requires IsNorm(norm) && |s| == |c| && Dot(c, c) <= 1.0
    ensures Dot(s, Normalise(norm, s)) >= Dot(s, c)
    ensures Dot(Normalise(norm, s), Normalise(norm, s)) <= 1.0
  {
    NormBound(norm, s, c);
    NormaliseFacts(norm, s);
  }

  /** A recomputed centroid serves its own members at least as well as the old one did. */
  lemma NextCentroidServesMembers(norm: Vec -> real, x: seq<Vec>, labels: Labels, cents: seq<Vec>, c: nat, d: nat)
    requires IsNorm(norm) && x != [] && cents != [] && Matrix(cents, d) && Matrix(x, d)
    requires |labels| == |x| && c < |cents| && UnitRows(cents) && UnitRows(x)
    ensures Dot(MemberSum(x, labels, c, d), NextCentroid(norm, x, labels, cents, c, d))
         >= Dot(MemberSum(x, labels, c, d), cents[c])
    ensures Dot(NextCentroid(norm, x, labels, cents, c, d), NextCentroid(norm, x, labels, cents, c, d)) <= 1.0
  {
    if c !in labels {
      NoMembersSumToZero(x, labels, c, d);
      DotZero(d, cents[c]);
      DotZero(d, NextCentroid(norm, x, labels, cents, c, d));
    } else {
      NormalisedIsClosest(norm, MemberSum(x, labels, c, d), cents[c]);
    }
  }

  /** The centroid array after the first n clusters have been recomputed. */
  ghost function Partly(next: seq<Vec>, cents: seq<Vec>, n: nat): seq<Vec>
    requires |next| == |cents| && n <= |cents|
  {
    next[..n] + cents[n..]
  }

  lemma PartlyNext(next: seq<Vec>, cents: seq<Vec>, n: nat, d: nat)
    requires |next| == |cents| && n <= |cents| && Matrix(next, d) && Matrix(cents, d)
    ensures var now := Partly(next, cents, n);
            && |now| == |cents| && Matrix(now, d) && (n == 0 ==> now == cents)
            && (n > 0 ==> var before := Partly(next, cents, n - 1);
                          |before| == |cents| && now == before[n - 1 := next[n - 1]] && before[n - 1] == cents[n - 1])
  {
  }

  lemma {:induction false} PartialUpdateImproves(
    norm: Vec -> real, x: seq<Vec>, labels: Labels, cents: seq<Vec>, d: nat, n: nat)
    requires IsNorm(norm) && x != [] && cents != [] && Matrix(cents, d) && Matrix(x, d)
    requires |labels| == |x| && InRange(labels, |cents|) && UnitRows(cents) && UnitRows(x) && n <= |cents|
    ensures Matrix(Partly(NextCentroids(norm, x, labels, cents, d), cents, n), d)
    ensures Assigned(x, labels, Partly(NextCentroids(norm, x, labels, cents, d), cents, n), d)
         >= Assigned(x, labels, cents, d)
  {
    hide Assigned, UnitRows, IsNorm, InRange, Partly, Dot, MemberSum;
    var next := NextCentroids(norm, x, labels, cents, d);
    PartlyNext(next, cents, n, d);
    if n > 0 {
      PartialUpdateImproves(norm, x, labels, cents, d, n - 1);
      var before := Partly(next, cents, n - 1);
      AssignedUpdate(x, labels, before, n - 1, next[n - 1], d);
      NextCentroidServesMembers(norm, x, labels, cents, n - 1, d);
    }
  }

  /** One iteration: the objective does not fall, and the centroids stay in the unit ball. */
  lemma ObjectiveNeverFalls(norm: Vec -> real, x: seq<Vec>, cents: seq<Vec>, d: nat)
    requires IsNorm(norm) && x != [] && cents != [] && Matrix(cents, d) && Matrix(x, d)
    requires UnitRows(cents) && UnitRows(x)
    ensures var labels := BestLabels(x, cents, d);
            var next := NextCentroids(norm, x, labels, cents, d);
            && Objective(x, cents, d) <= Assigned(x, labels, next, d) <= Objective(x, next, d)
            && UnitRows(next)
  {
    var labels := BestLabels(x, cents, d);
    var next := NextCentroids(norm, x, labels, cents, d);
    BestLabelsReachObjective(x, cents, d);
    PartialUpdateImproves(norm, x, labels, cents, d, |cents|);
    assert Partly(next, cents, |cents|) == next;
    AssignedAtMostObjective(x, labels, next, d);
    forall c | 0 <= c < |next|
      ensures Dot(next[c], next[c]) <= 1.0
    {
      NextCentroidServesMembers(norm, x, labels, cents, c, d);
    }
  }

  /** A whole run: what it returns scores at least as well as what it started from,
      and so does the returned labelling on its own. */
  lemma {:induction false} RunNeverWorseThanSeed(
    norm: Vec -> real, x: seq<Vec>, labels: Labels, cents: seq<Vec>, d: nat, n: nat)
    requires IsNorm(norm) && x != [] && cents != [] && Matrix(cents, d) && Matrix(x, d)
    requires UnitRows(cents) && UnitRows(x) && n > 0
    ensures var r := Lloyd(norm, x, labels, cents, d, n);
            && |r.0| == |x| && InRange(r.0, |cents|) && UnitRows(r.1)
            && Objective(x, cents, d) <= Assigned(x, r.0, r.1, d) <= Objective(x, r.1, d)
    decreases n
  {
    var labels' := BestLabels(x, cents, d);
    if labels' == labels {
      BestLabelsReachObjective(x, cents, d);
    } else {
      var next := NextCentroids(norm, x, labels', cents, d);
      ObjectiveNeverFalls(norm, x, cents, d);
      if n > 1 {
        RunNeverWorseThanSeed(norm, x, labels', next, d, n - 1);
      } else {
        assert Lloyd(norm, x, labels', next, d, 0) == (labels', next);
      }
    }
  }

  // ------------------------------------------------------- what an iteration does

  /** Each item is labelled with the first centroid most similar to it. */
  lemma BestLabelsAre(x: seq<Vec>, cents: seq<Vec>, d: nat, i: nat, c: nat)
    requires cents != [] && Matrix(cents, d) && Matrix(x, d) && i < |x| && c < |cents|
    ensures var l := BestLabels(x, cents, d)[i];
            Dot(x[i], cents[c]) <= Dot(x[i], cents[l]) && (c < l ==> Dot(x[i], cents[c]) < Dot(x[i], cents[l]))
  {}

  /** Coordinate by coordinate, the sum of the items labelled c. */
  ghost function ClusterSum(x: seq<Vec>, labels: Labels, c: int, d: nat): (s: Vec)
    requires Matrix(x, d) && |labels| == |x|
    ensures |s| == d
  {
    seq(d, j requires 0 <= j < d =>
      Sum(|x|, (i: nat) => if i < |x| && i < |labels| && labels[i] == c && j < |x[i]| then x[i][j] else 0.0))
  }

  lemma {:induction false} MemberSumAt(x: seq<Vec>, labels: Labels, c: int, d: nat, j: nat, f: nat -> real)
    requires Matrix(x, d) && |labels| == |x| && j < d
    requires forall i: nat :: i < |x| ==> f(i) == if labels[i] == c then x[i][j] else 0.0
    ensures MemberSum(x, labels, c, d)[j] == Sum(|x|, f)
  {
    if x != [] {
      var g := (i: nat) => f(i + 1);
      MemberSumAt(x[1..], labels[1..], c, d, j, g);
      SumFirst(|x|, f, g);
    }
  }

  lemma MemberSumIs(x: seq<Vec>, labels: Labels, c: int, d: nat)
    requires Matrix(x, d) && |labels| == |x|
    ensures MemberSum(x, labels, c, d) == ClusterSum(x, labels, c, d)
  {
    forall j: nat | j < d ensures MemberSum(x, labels, c, d)[j] == ClusterSum(x, labels, c, d)[j] {
      MemberSumAt(x, labels, c, d, j, (i: nat) =>
        if i < |x| && i < |labels| && labels[i] == c && j < |x[i]| then x[i][j] else 0.0);
    }
  }

  /** Every similarity of the one item is below, or at most, some similarity of the other. */
  ghost predicate FitsWorse(one: Vec, other: Vec, cents: seq<Vec>, strictly: bool)
    requires Matrix(cents, |one|) && |one| == |other|
  {
    exists e :: 0 <= e < |cents| && forall c :: 0 <= c < |cents| ==>
      Dot(one, cents[c]) <= Dot(other, cents[e]) && (strictly ==> Dot(one, cents[c]) < Dot(other, cents[e]))
  }

  /** v times r is s. */
  ghost predicate IsShare(v: Vec, r: real, s: Vec) {
    |v| == |s| && forall j :: 0 <= j < |s| ==> v[j] * r == s[j]
  }

  /** v is s divided by its norm; a sum of norm zero is left alone. */
  ghost predicate IsNormalised(norm: Vec -> real, v: Vec, s: Vec) {
    if norm(s) == 0.0 then v == s else IsShare(v, norm(s), s)
  }

  lemma OverIsShare(s: Vec, r: real)
    requires r != 0.0
    ensures IsShare(Over(s, r), r, s)
  {
    forall j | 0 <= j < |s| ensures Over(s, r)[j] * r == s[j] {
      Undivide(s[j], r);
    }
  }

  lemma Undivide(p: real, q: real)
    requires q != 0.0
    ensures p / q * q == p
  {}

  lemma NormaliseIs(norm: Vec -> real, s: Vec)
    ensures IsNormalised(norm, Normalise(norm, s), s)
  {
    if norm(s) != 0.0 {
      OverIsShare(s, norm(s));
    }
  }

  /** The first item that fits its best centroid worst. */
  ghost predicate IsWorstFit(x: seq<Vec>, cents: seq<Vec>, d: nat, w: nat)
    requires Matrix(cents, d) && Matrix(x, d) && w < |x|
  {
    && (forall i :: 0 <= i < |x| ==> FitsWorse(x[w], x[i], cents, false))
    && (forall i :: 0 <= i < w ==> FitsWorse(x[w], x[i], cents, true))
  }

  lemma FitCompares(one: Vec, other: Vec, cents: seq<Vec>, strictly: bool)
    requires cents != [] && Matrix(cents, |one|) && |one| == |other|
    requires Fit(one, cents) <= Fit(other, cents) && (strictly ==> Fit(one, cents) < Fit(other, cents))
    ensures FitsWorse(one, other, cents, strictly)
  {
    var e := BestIndex(other, cents);
  }

  lemma WorstFitIs(x: seq<Vec>, cents: seq<Vec>, d: nat)
    requires x != [] && cents != [] && Matrix(cents, d) && Matrix(x, d)
    ensures IsWorstFit(x, cents, d, WorstFit(x, cents, d))
  {
    hide FitsWorse, Fit;
    var w := WorstFit(x, cents, d);
    forall i | 0 <= i < |x| ensures FitsWorse(x[w], x[i], cents, false) {
      FitCompares(x[w], x[i], cents, false);
    }
    forall i | 0 <= i < w ensures FitsWorse(x[w], x[i], cents, true) {
      FitCompares(x[w], x[i], cents, true);
    }
  }

  /** The centroid of a cluster with members is their sum, normalised; an empty cluster restarts at the
      first item that fits its best centroid worst. */
  lemma NextCentroidIs(norm: Vec -> real, x: seq<Vec>, labels: Labels, cents: seq<Vec>, c: nat, d: nat)
    requires x != [] && cents != [] && Matrix(cents, d) && Matrix(x, d) && |labels| == |x| && c < |cents|
    ensures var v := NextCentroids(norm, x, labels, cents, d)[c];
            if c in labels then IsNormalised(norm, v, ClusterSum(x, labels, c, d))
            else exists w :: 0 <= w < |x| && v == x[w] && IsWorstFit(x, cents, d, w)
  {
    hide IsNormalised, ClusterSum, MemberSum, IsWorstFit, WorstFit, Normalise;
    NextCentroidsAt(norm, x, labels, cents, d, c);
    MemberSumIs(x, labels, c, d);
    NormaliseIs(norm, MemberSum(x, labels, c, d));
    WorstFitIs(x, cents, d);
  }

  /** The rounds of a run: each relabels every item by its best centroid, and then moves the centroids. */
  ghost predicate Rounds(norm: Vec -> real, x: seq<Vec>, hist: seq<(Labels, seq<Vec>)>, d: nat) {
    && x != [] && Matrix(x, d) && (forall i :: 0 <= i < |hist| ==> hist[i].1 != [] && Matrix(hist[i].1, d))
    && forall i :: 0 <= i < |hist| - 1 ==>
         && hist[i + 1].0 == BestLabels(x, hist[i].1, d) != hist[i].0
         && hist[i + 1].1 == NextCentroids(norm, x, hist[i + 1].0, hist[i].1, d)
  }

  /** A run makes n rounds, or fewer if the labels settle before. */
  lemma {:induction false} LloydIs(norm: Vec -> real, x: seq<Vec>, labels: Labels, cents: seq<Vec>, d: nat, n: nat)
    returns (hist: seq<(Labels, seq<Vec>)>)
    requires x != [] && cents != [] && Matrix(cents, d) && Matrix(x, d)
    ensures 0 < |hist| <= n + 1 && hist[0] == (labels, cents) && Rounds(norm, x, hist, d)
    ensures hist[|hist| - 1] == Lloyd(norm, x, labels, cents, d, n)
    ensures |hist| == n + 1 || hist[|hist| - 1].0 == BestLabels(x, hist[|hist| - 1].1, d)
    decreases n
  {
    hide NextCentroids, BestLabels, Rounds, Lloyd;
    var labels' := BestLabels(x, cents, d);
    NoRounds(norm, x, labels, cents, d);
    if n == 0 {
      hist := [(labels, cents)];
      LloydDone(norm, x, labels, cents, d);
    } else if labels' == labels {
      hist := [(labels, cents)];
      LloydSettled(norm, x, labels, cents, d, n);
    } else {
      LloydStep(norm, x, labels, cents, d, n);
      var rest := LloydIs(norm, x, labels', NextCentroids(norm, x, labels', cents, d), d, n - 1);
      hist := [(labels, cents)] + rest;
      OneMoreRound(norm, x, labels, cents, rest, d);
    }
  }

  lemma NoRounds(norm: Vec -> real, x: seq<Vec>, labels: Labels, cents: seq<Vec>, d: nat)
    requires x != [] && cents != [] && Matrix(cents, d) && Matrix(x, d)
    ensures Rounds(norm, x, [(labels, cents)], d)
  {}

  lemma OneMoreRound(norm: Vec -> real, x: seq<Vec>, labels: Labels, cents: seq<Vec>, rest: seq<(Labels, seq<Vec>)>, d: nat)
    requires cents != [] && Matrix(cents, d) && rest != [] && Rounds(norm, x, rest, d)
    requires rest[0].0 == BestLabels(x, cents, d) != labels
    requires rest[0].1 == NextCentroids(norm, x, rest[0].0, cents, d)
    ensures Rounds(norm, x, [(labels, cents)] + rest, d)
  {
    hide NextCentroids, BestLabels;
    var hist := [(labels, cents)] + rest;
    assert forall i :: 1 <= i < |hist| ==> hist[i] == rest[i - 1];
  }

  /** A run starts from the rows of its seed, and its first round always moves the centroids. */
  lemma FirstRoundMoves(norm: Vec -> real, x: seq<Vec>, seed: seq<nat>, d: nat, maxIter: nat)
    requires x != [] && Matrix(x, d) && Seeds(seed, |x|) && maxIter > 0
    ensures var start := seq(|seed|, i requires 0 <= i < |seed| => x[seed[i]]);
            var first := BestLabels(x, start, d);
            RunOf(norm, x, seed, d, maxIter)
            == Lloyd(norm, x, first, NextCentroids(norm, x, first, start, d), d, maxIter - 1)
  {
    hide NextCentroids;
    assert Rows(x, seed) == seq(|seed|, i requires 0 <= i < |seed| => x[seed[i]]);
    var first := BestLabels(x, Rows(x, seed), d);
    assert first[0] >= 0 > Unlabelled(|x|)[0];
  }

  // ---------------------------------------------------------- the loops themselves

  ghost predicate Seeds(seed: seq<nat>, n: nat) {
    seed != [] && forall i :: 0 <= i < |seed| ==> seed[i] < n
  }

  function Rows(x: seq<Vec>, seed: seq<nat>): (r: seq<Vec>)
    requires Seeds(seed, |x|)
    ensures |r| == |seed|
  {
    seq(|seed|, i requires 0 <= i < |seed| => x[seed[i]])
  }

  function Unlabelled(n: nat): Labels {
    seq(n, _ => -1)
  }

  ghost function RunOf(norm: Vec -> real, x: seq<Vec>, seed: seq<nat>, d: nat, maxIter: nat): (Labels, seq<Vec>)
    requires x != [] && Matrix(x, d) && Seeds(seed, |x|)
  {
    Lloyd(norm, x, Unlabelled(|x|), Rows(x, seed), d, maxIter)
  }

  lemma NextCentroidsAt(norm: Vec -> real, x: seq<Vec>, labels: Labels, cents: seq<Vec>, d: nat, c: nat)
    requires x != [] && cents != [] && Matrix(cents, d) && Matrix(x, d) && |labels| == |x| && c < |cents|
    ensures NextCentroids(norm, x, labels, cents, d)[c]
         == if c !in labels then x[WorstFit(x, cents, d)] else Normalise(norm, MemberSum(x, labels, c, d))
  {
  }

  /** Recompute every centroid in place; similarities are those from before the update. */
  method UpdateCentroids(norm: Vec -> real, x: seq<Vec>, labels: Labels, cents: array<Vec>, d: nat)
    requires x != [] && Matrix(x, d) && cents.Length > 0 && Matrix(cents[..], d) && |labels| == |x|
    modifies cents
    ensures cents[..] == NextCentroids(norm, x, labels, old(cents[..]), d)
  {
    hide NextCentroids, WorstFit, MemberSum, Normalise;
    var before := cents[..];
    ghost var next := NextCentroids(norm, x, labels, before, d);
    var worst := WorstFit(x, before, d);
    for c := 0 to cents.Length
      invariant forall j :: 0 <= j < c ==> cents[j] == next[j]
    {
      NextCentroidsAt(norm, x, labels, before, d, c);
      cents[c] := if c !in labels then x[worst] else Normalise(norm, MemberSum(x, labels, c, d));
    }
  }

  lemma LloydDone(norm: Vec -> real, x: seq<Vec>, labels: Labels, cents: seq<Vec>, d: nat)
    requires x != [] && cents != [] && Matrix(cents, d) && Matrix(x, d)
    ensures Lloyd(norm, x, labels, cents, d, 0) == (labels, cents)
  {}

  lemma LloydSettled(norm: Vec -> real, x: seq<Vec>, labels: Labels, cents: seq<Vec>, d: nat, n: nat)
    requires x != [] && cents != [] && Matrix(cents, d) && Matrix(x, d)
    requires labels == BestLabels(x, cents, d)
    ensures Lloyd(norm, x, labels, cents, d, n) == (labels, cents)
  {}

  lemma LloydStep(norm: Vec -> real, x: seq<Vec>, labels: Labels, cents: seq<Vec>, d: nat, n: nat)
    requires x != [] && cents != [] && Matrix(cents, d) && Matrix(x, d)
    requires n > 0 && labels != BestLabels(x, cents, d)
    ensures var labels' := BestLabels(x, cents, d);
            Lloyd(norm, x, labels, cents, d, n)
            == Lloyd(norm, x, labels', NextCentroids(norm, x, labels', cents, d), d, n - 1)
  {}

  /** One restart: centroids are overwritten in place until the labels settle. */
  method RunFromSeed(norm: Vec -> real, x: seq<Vec>, seed: seq<nat>, d: nat, maxIter: nat)
    returns (labels: Labels, centroids: seq<Vec>)
    requires x != [] && Matrix(x, d) && Seeds(seed, |x|)
    ensures (labels, centroids) == RunOf(norm, x, seed, d, maxIter)
  {
    hide NextCentroids, BestIndex, WorstFit, Normalise;
    var start := Rows(x, seed);
    var cents := new Vec[|seed|](i requires 0 <= i < |seed| => start[i]);
    labels, centroids := Unlabelled(|x|), cents[..];
    assert centroids == start;
    ghost var goal := RunOf(norm, x, seed, d, maxIter);
    var iter := 0;
    while iter < maxIter
      invariant iter <= maxIter
      invariant centroids == cents[..] && |centroids| == |seed| && Matrix(centroids, d)
      invariant Lloyd(norm, x, labels, centroids, d, maxIter - iter) == goal
    {
      var newLabels := BestLabels(x, centroids, d);
      if newLabels == labels {
        LloydSettled(norm, x, labels, centroids, d, maxIter - iter);
        return;
      }
      LloydStep(norm, x, labels, centroids, d, maxIter - iter);
      labels := newLabels;
      UpdateCentroids(norm, x, labels, cents, d);
      centroids := cents[..];
      iter := iter + 1;
    }
  }

  ghost function ScoreOf(norm: Vec -> real, x: seq<Vec>, seed: seq<nat>, d: nat, maxIter: nat): real
    requires x != [] && Matrix(x, d) && Seeds(seed, |x|)
  {
    Objective(x, RunOf(norm, x, seed, d, maxIter).1, d)
  }

  ghost predicate Clustering(x: seq<Vec>, labels: Labels, centroids: seq<Vec>, d: nat, k: nat) {
    |labels| == |x| && |centroids| == k && Matrix(centroids, d) && InRange(labels, k) && UnitRows(centroids)
  }

  lemma SeededRun(norm: Vec -> real, x: seq<Vec>, seed: seq<nat>, d: nat, maxIter: nat)
    requires IsNorm(norm) && x != [] && Matrix(x, d) && UnitRows(x) && Seeds(seed, |x|) && maxIter > 0
    ensures var r := RunOf(norm, x, seed, d, maxIter);
            && Clustering(x, r.0, r.1, d, |seed|)
            && Objective(x, Rows(x, seed), d) <= Assigned(x, r.0, r.1, d) <= Objective(x, r.1, d)
  {
    RunNeverWorseThanSeed(norm, x, Unlabelled(|x|), Rows(x, seed), d, maxIter);
  }

  ghost predicate AllSeeds(seeds: seq<seq<nat>>, n: nat, k: nat) {
    forall r :: 0 <= r < |seeds| ==> Seeds(seeds[r], n) && |seeds[r]| == k
  }

  /** Run r scores at least as high as every run, and higher than those before it. */
  ghost predicate Wins(norm: Vec -> real, x: seq<Vec>, seeds: seq<seq<nat>>, d: nat, maxIter: nat, r: nat, k: nat)
    requires x != [] && Matrix(x, d) && AllSeeds(seeds, |x|, k) && r < |seeds|
  {
    var best := ScoreOf(norm, x, seeds[r], d, maxIter);
    && (forall q :: 0 <= q < |seeds| ==> ScoreOf(norm, x, seeds[q], d, maxIter) <= best)
    && (forall q :: 0 <= q < r ==> ScoreOf(norm, x, seeds[q], d, maxIter) < best)
  }

  lemma FirstWins(norm: Vec -> real, x: seq<Vec>, seeds: seq<seq<nat>>, d: nat, maxIter: nat, k: nat)
    requires x != [] && Matrix(x, d) && AllSeeds(seeds, |x|, k) && seeds != []
    ensures AllSeeds(seeds[..1], |x|, k) && Wins(norm, x, seeds[..1], d, maxIter, 0, k)
  {
  }

  lemma WinsNext(norm: Vec -> real, x: seq<Vec>, seeds: seq<seq<nat>>, d: nat, maxIter: nat, r: nat, k: nat, n: nat)
    requires x != [] && Matrix(x, d) && AllSeeds(seeds, |x|, k) && r < n < |seeds|
    requires AllSeeds(seeds[..n], |x|, k) && AllSeeds(seeds[..n + 1], |x|, k)
    requires Wins(norm, x, seeds[..n], d, maxIter, r, k)
    ensures Wins(norm, x, seeds[..n + 1], d, maxIter,
                 if ScoreOf(norm, x, seeds[n], d, maxIter) > ScoreOf(norm, x, seeds[r], d, maxIter) then n else r, k)
  {
    hide ScoreOf;
    var more := seeds[..n + 1];
    forall q | 0 <= q < n ensures more[q] == seeds[..n][q] == seeds[q] {
    }
    assert more[n] == seeds[n];
  }

  /** The labels and centroids of the restart that wins. */
  ghost predicate IsBestRun(norm: Vec -> real, x: seq<Vec>, k: nat, seeds: seq<seq<nat>>, d: nat, maxIter: nat,
                            labels: Labels, centroids: seq<Vec>)
    requires x != [] && Matrix(x, d) && AllSeeds(seeds, |x|, k)
  {
    exists r :: 0 <= r < |seeds| && (labels, centroids) == RunOf(norm, x, seeds[r], d, maxIter)
                && Wins(norm, x, seeds, d, maxIter, r, k)
  }

  /** Every restart from its seed; the best-scoring run is kept, the earliest on ties. */
  method BestRestart(norm: Vec -> real, x: seq<Vec>, k: nat, seeds: seq<seq<nat>>, d: nat, maxIter: nat)
    returns (labels: Labels, centroids: seq<Vec>, ghost winner: nat)
    requires x != [] && Matrix(x, d) && seeds != [] && AllSeeds(seeds, |x|, k)
    ensures winner < |seeds| && Wins(norm, x, seeds, d, maxIter, winner, k)
    ensures (labels, centroids) == RunOf(norm, x, seeds[winner], d, maxIter)
  {
    labels, centroids := RunFromSeed(norm, x, seeds[0], d, maxIter);
    var best := Objective(x, centroids, d);
    winner := 0;
    FirstWins(norm, x, seeds, d, maxIter, k);
    hide Objective, Wins;
    for r := 1 to |seeds|
      invariant 0 <= winner < r && AllSeeds(seeds[..r], |x|, k)
      invariant (labels, centroids) == RunOf(norm, x, seeds[winner], d, maxIter)
      invariant best == ScoreOf(norm, x, seeds[winner], d, maxIter)
      invariant Wins(norm, x, seeds[..r], d, maxIter, winner, k)
    {
      var runLabels, runCentroids := RunFromSeed(norm, x, seeds[r], d, maxIter);
      var score := Objective(x, runCentroids, d);
      WinsNext(norm, x, seeds, d, maxIter, winner, k, r);
      if score > best {
        best, labels, centroids := score, runLabels, runCentroids;
        winner := r;
      }
    }
    assert seeds[..|seeds|] == seeds;
  }

  lemma WinnerIsBest(norm: Vec -> real, x: seq<Vec>, k: nat, seeds: seq<seq<nat>>, d: nat, maxIter: nat, r: nat)
    requires x != [] && Matrix(x, d) && AllSeeds(seeds, |x|, k) && r < |seeds| && Wins(norm, x, seeds, d, maxIter, r, k)
    ensures var run := RunOf(norm, x, seeds[r], d, maxIter);
            IsBestRun(norm, x, k, seeds, d, maxIter, run.0, run.1)
  {
    hide Wins, RunOf;
    var run := RunOf(norm, x, seeds[r], d, maxIter);
    assert (run.0, run.1) == RunOf(norm, x, seeds[r], d, maxIter);
  }

  /** What the best run is worth: well formed, and no worse than any of the seeds. */
  lemma BestRunIsGood(norm: Vec -> real, x: seq<Vec>, k: nat, seeds: seq<seq<nat>>, d: nat, maxIter: nat,
                      labels: Labels, centroids: seq<Vec>)
    requires IsNorm(norm) && x != [] && Matrix(x, d) && UnitRows(x) && AllSeeds(seeds, |x|, k) && k > 0 && maxIter > 0
    requires IsBestRun(norm, x, k, seeds, d, maxIter, labels, centroids)
    ensures Clustering(x, labels, centroids, d, k)
    ensures forall q :: 0 <= q < |seeds| ==> Objective(x, centroids, d) >= Objective(x, Rows(x, seeds[q]), d)
  {
    var r :| 0 <= r < |seeds| && (labels, centroids) == RunOf(norm, x, seeds[r], d, maxIter)
             && Wins(norm, x, seeds, d, maxIter, r, k);
    hide Objective, UnitRows;
    forall q | 0 <= q < |seeds|
      ensures Objective(x, centroids, d) >= Objective(x, Rows(x, seeds[q]), d)
    {
      SeededRun(norm, x, seeds[q], d, maxIter);
      assert ScoreOf(norm, x, seeds[q], d, maxIter) <= ScoreOf(norm, x, seeds[r], d, maxIter);
    }
    SeededRun(norm, x, seeds[r], d, maxIter);
  }

  /** The clustering of the normalised rows: well formed, best of its restarts, and no worse than any
      of the seeds it started from. */
  method SphericalKMeans(norm: Vec -> real, raw: seq<Vec>, k: nat, seeds: seq<seq<nat>>, d: nat, maxIter: nat)
    returns (labels: Labels, centroids: seq<Vec>)
    requires IsNorm(norm) && raw != [] && Matrix(raw, d) && k > 0 && maxIter > 0 && seeds != []
    requires AllSeeds(seeds, |raw|, Smaller(k, |raw|))
    ensures var x := NormaliseRows(norm, raw);
            && IsBestRun(norm, x, Smaller(k, |raw|), seeds, d, maxIter, labels, centroids)
            && Clustering(x, labels, centroids, d, Smaller(k, |raw|))
            && (forall q :: 0 <= q < |seeds| ==> Objective(x, centroids, d) >= Objective(x, Rows(x, seeds[q]), d))
  {
    hide IsBestRun, Clustering, Objective, UnitRows, Wins;
    var x := NormaliseRows(norm, raw);
    NormaliseRowsFacts(norm, raw);
    ghost var winner;
    labels, centroids, winner := BestRestart(norm, x, Smaller(k, |raw|), seeds, d, maxIter);
    WinnerIsBest(norm, x, Smaller(k, |raw|), seeds, d, maxIter, winner);
    BestRunIsGood(norm, x, Smaller(k, |raw|), seeds, d, maxIter, labels, centroids);
  }
}
