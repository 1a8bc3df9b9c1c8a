/** The folder profile: silhouette and the choice of the number of themes. */
module Folder {

  import opened Basics
  import opened Vectors
  import opened KMeans

  /** Distance between items by index; what silhouette is computed from. */
  type Distance = (nat, nat) -> real

  ghost predicate NonNegative(dist: Distance) {
    forall i, j :: dist(i, j) >= 0.0
  }

  /** Cosine distance, clipped at zero. */
  function CosineDistance(x: seq<Vec>, ghost d: nat): (dist: Distance)
    requires Matrix(x, d)
    ensures NonNegative(dist)
  {
    (i: nat, j: nat) =>
      if i < |x| && j < |x| && 1.0 - Dot(x[i], x[j]) > 0.0 then 1.0 - Dot(x[i], x[j]) else 0.0
  }

  function CountOf(labels: Labels, c: int): nat {
    if labels == [] then 0
    else CountOf(labels[1..], c) + if labels[0] == c then 1 else 0
  }

  /** Total distance from item i to the items of cluster c among the first n. */
  function DistanceTo(dist: Distance, labels: Labels, i: nat, c: int, n: nat): real
    requires n <= |labels|
  {
    if n == 0 then 0.0
    else DistanceTo(dist, labels, i, c, n - 1) + if labels[n - 1] == c then dist(i, n - 1) else 0.0
  }

  function MeanDistance(dist: Distance, labels: Labels, i: nat, c: int): real {
    if CountOf(labels, c) == 0 then 0.0
    else DistanceTo(dist, labels, i, c, |labels|) / CountOf(labels, c) as real
  }

  function Unique(labels: Labels): (u: seq<int>)
    ensures forall c :: c in u <==> c in labels
  {
    if labels == [] then []
    else
      var u := Unique(labels[1..]);
      if labels[0] in u then u else [labels[0]] + u
  }

  /** The least mean distance to another cluster; None when there is no other. */
  function NearestOther(dist: Distance, labels: Labels, i: nat, uniq: seq<int>): (r: Option<real>)
    requires i < |labels|
    ensures r.None? <==> forall c :: c in uniq ==> c == labels[i]
    ensures r.Some? ==>
              && (exists c :: c in uniq && c != labels[i] && r.value == MeanDistance(dist, labels, i, c))
              && (forall c :: c in uniq && c != labels[i] ==> r.value <= MeanDistance(dist, labels, i, c))
  {
    if uniq == [] then None
    else
      var rest := NearestOther(dist, labels, i, uniq[1..]);
      assert uniq[0] in uniq && forall c :: c in uniq <==> c == uniq[0] || c in uniq[1..];
      if uniq[0] == labels[i] then rest
      else
        var m := MeanDistance(dist, labels, i, uniq[0]);
        if rest.Some? && rest.value <= m then rest else Some(m)
  }

  const TINY := 0.000000000001

  function Contrast(a: real, b: real): real {
    var m := if a > b then a else b;
    (b - a) / if m > TINY then m else TINY
  }

  function ItemScore(dist: Distance, labels: Labels, i: nat): real
    requires i < |labels|
  {
    var own := CountOf(labels, labels[i]);
    var b := NearestOther(dist, labels, i, Unique(labels));
    if own <= 1 || b.None? then 0.0
    else Contrast(DistanceTo(dist, labels, i, labels[i], |labels|) / (own - 1) as real, b.value)
  }

  function ScoreSum(dist: Distance, labels: Labels, n: nat): real
    requires n <= |labels|
  {
    if n == 0 then 0.0 else ScoreSum(dist, labels, n - 1) + ItemScore(dist, labels, n - 1)
  }

  function Silhouette(dist: Distance, labels: Labels): real {
    if |Unique(labels)| < 2 then 0.0 else ScoreSum(dist, labels, |labels|) / |labels| as real
  }

  lemma QuotientBounds(p: real, q: real)
    requires q > 0.0 && -q <= p <= q
    ensures -1.0 <= p / q <= 1.0
  {
    var r := p / q;
    assert r * q == p;
    if r > 1.0 {
      Positive(r - 1.0, q);
    }
    if r < -1.0 {
      Positive(-1.0 - r, q);
    }
  }

  lemma QuotientNonNegative(p: real, q: real)
    requires q > 0.0 && p >= 0.0
    ensures p / q >= 0.0
  {}

  lemma {:induction false} DistanceToNonNegative(dist: Distance, labels: Labels, i: nat, c: int, n: nat)
    requires NonNegative(dist) && n <= |labels|
    ensures DistanceTo(dist, labels, i, c, n) >= 0.0
  {
    if n > 0 {
      DistanceToNonNegative(dist, labels, i, c, n - 1);
    }
  }

  lemma MeanDistanceNonNegative(dist: Distance, labels: Labels, i: nat, c: int)
    requires NonNegative(dist)
    ensures MeanDistance(dist, labels, i, c) >= 0.0
  {
    DistanceToNonNegative(dist, labels, i, c, |labels|);
    if CountOf(labels, c) != 0 {
      QuotientNonNegative(DistanceTo(dist, labels, i, c, |labels|), CountOf(labels, c) as real);
    }
  }

  lemma ContrastBounded(a: real, b: real)
    requires a >= 0.0 && b >= 0.0
    ensures -1.0 <= Contrast(a, b) <= 1.0
  {
    var m := if a > b then a else b;
    QuotientBounds(b - a, if m > TINY then m else TINY);
  }

  lemma ItemScoreBounded(dist: Distance, labels: Labels, i: nat)
    requires NonNegative(dist) && i < |labels|
    ensures -1.0 <= ItemScore(dist, labels, i) <= 1.0
  {
    var own := CountOf(labels, labels[i]);
    var b := NearestOther(dist, labels, i, Unique(labels));
    if own > 1 && b.Some? {
      DistanceToNonNegative(dist, labels, i, labels[i], |labels|);
      QuotientNonNegative(DistanceTo(dist, labels, i, labels[i], |labels|), (own - 1) as real);
      var c :| c in Unique(labels) && b.value == MeanDistance(dist, labels, i, c);
      MeanDistanceNonNegative(dist, labels, i, c);
      ContrastBounded(DistanceTo(dist, labels, i, labels[i], |labels|) / (own - 1) as real, b.value);
    }
  }

  lemma {:induction false} ScoreSumBounded(dist: Distance, labels: Labels, n: nat)
    requires NonNegative(dist) && n <= |labels|
    ensures -(n as real) <= ScoreSum(dist, labels, n) <= n as real
  {
    if n > 0 {
      ScoreSumBounded(dist, labels, n - 1);
      ItemScoreBounded(dist, labels, n - 1);
    }
  }

  lemma SilhouetteInUnitRange(dist: Distance, labels: Labels)
    requires NonNegative(dist)
    ensures -1.0 <= Silhouette(dist, labels) <= 1.0
  {
    ScoreSumBounded(dist, labels, |labels|);
    if |Unique(labels)| >= 2 {
      QuotientBounds(ScoreSum(dist, labels, |labels|), |labels| as real);
    }
  }

  // ---------------------------------------------------------- what a silhouette means

  /** How many items carry the label c. */
  ghost function Size(labels: Labels, c: int): real {
    Sum(|labels|, (j: nat) => if j < |labels| && labels[j] == c then 1.0 else 0.0)
  }

  /** The sum of the clipped cosine distances from item i to the items that carry the label c. */
  ghost function Spread(x: seq<Vec>, labels: Labels, i: nat, c: int): real
    requires i < |x|
  {
    Sum(|labels|, (j: nat) =>
      if j < |labels| && j < |x| && labels[j] == c && |x[i]| == |x[j]| && Dot(x[i], x[j]) < 1.0
      then 1.0 - Dot(x[i], x[j]) else 0.0)
  }

  ghost predicate Alone(labels: Labels, i: nat)
    requires i < |labels|
  {
    Size(labels, labels[i]) <= 1.0 || forall c :: c in labels ==> c == labels[i]
  }

  /** The score of item i: with a its mean distance to the other items of its own cluster and b the
      least mean distance to another cluster, (b - a) / max(a, b, 1e-12); zero for an item alone in its
      cluster or without another cluster. */
  ghost predicate IsScore(x: seq<Vec>, labels: Labels, i: nat, score: real)
    requires i < |x| == |labels|
  {
    if Alone(labels, i) then score == 0.0
    else exists a, b :: IsOwnMean(x, labels, i, a) && IsNearestMean(x, labels, i, b) && IsContrast(a, b, score)
  }

  ghost predicate IsOwnMean(x: seq<Vec>, labels: Labels, i: nat, a: real)
    requires i < |x| == |labels|
  {
    IsMean(a, Size(labels, labels[i]) - 1.0, Spread(x, labels, i, labels[i]))
  }

  ghost predicate IsNearestMean(x: seq<Vec>, labels: Labels, i: nat, b: real)
    requires i < |x| == |labels|
  {
    && (exists c :: c in labels && c != labels[i] && IsMean(b, Size(labels, c), Spread(x, labels, i, c)))
    && (forall c :: c in labels && c != labels[i] ==> AtMostMean(b, Size(labels, c), Spread(x, labels, i, c)))
  }

  ghost predicate AtMostMean(a: real, size: real, total: real) {
    a * size <= total
  }

  /** The first total has the smaller mean. */
  ghost predicate SmallerMean(total: real, size: real, other: real, otherSize: real) {
    total * otherSize < other * size
  }

  ghost predicate IsContrast(a: real, b: real, score: real) {
    score * Greatest(a, b, 0.000000000001) == b - a
  }

  ghost function Greatest(a: real, b: real, c: real): (m: real)
    ensures m >= a && m >= b && m >= c && (m == a || m == b || m == c)
  {
    if a >= b && a >= c then a else if b >= c then b else c
  }

  /** s is the mean of the scores of all items. */
  ghost predicate IsMeanScore(x: seq<Vec>, labels: Labels, s: real) {
    && |x| == |labels|
    && exists scores: nat -> real ::
         IsMean(s, |x| as real, Sum(|x|, scores)) && forall i: nat :: i < |x| ==> IsScore(x, labels, i, scores(i))
  }

  lemma {:induction false} CountAppend(labels: Labels, last: int, c: int)
    ensures CountOf(labels + [last], c) == CountOf(labels, c) + if last == c then 1 else 0
  {
    if labels == [] {
      assert labels + [last] == [last];
    } else {
      assert (labels + [last])[1..] == labels[1..] + [last];
      CountAppend(labels[1..], last, c);
    }
  }

  lemma {:induction false} CountIsSum(labels: Labels, c: int, n: nat, f: nat -> real)
    requires n <= |labels| && forall j: nat :: j < n ==> f(j) == if labels[j] == c then 1.0 else 0.0
    ensures CountOf(labels[..n], c) as real == Sum(n, f)
  {
    if n > 0 {
      CountIsSum(labels, c, n - 1, f);
      assert labels[..n] == labels[..n - 1] + [labels[n - 1]];
      CountAppend(labels[..n - 1], labels[n - 1], c);
    }
  }

  lemma CountIsSize(labels: Labels, c: int)
    ensures CountOf(labels, c) as real == Size(labels, c)
  {
    assert labels[..|labels|] == labels;
    CountIsSum(labels, c, |labels|, (j: nat) => if j < |labels| && labels[j] == c then 1.0 else 0.0);
  }

  lemma {:induction false} DistanceIsSum(dist: Distance, labels: Labels, i: nat, c: int, n: nat, f: nat -> real)
    requires n <= |labels| && forall j: nat :: j < n ==> f(j) == if labels[j] == c then dist(i, j) else 0.0
    ensures DistanceTo(dist, labels, i, c, n) == Sum(n, f)
  {
    if n > 0 {
      DistanceIsSum(dist, labels, i, c, n - 1, f);
    }
  }

  lemma DistanceIsSpread(x: seq<Vec>, labels: Labels, i: nat, c: int, d: nat)
    requires Matrix(x, d) && i < |x| == |labels|
    ensures DistanceTo(CosineDistance(x, d), labels, i, c, |labels|) == Spread(x, labels, i, c)
  {
    DistanceIsSum(CosineDistance(x, d), labels, i, c, |labels|, (j: nat) =>
      if j < |labels| && j < |x| && labels[j] == c && |x[i]| == |x[j]| && Dot(x[i], x[j]) < 1.0
      then 1.0 - Dot(x[i], x[j]) else 0.0);
  }

  lemma {:induction false} CountPositive(labels: Labels, c: int)
    ensures CountOf(labels, c) > 0 <==> c in labels
  {
    if labels != [] {
      CountPositive(labels[1..], c);
      assert c in labels <==> c == labels[0] || c in labels[1..];
    }
  }

  lemma MeanIs(x: seq<Vec>, labels: Labels, i: nat, c: int, d: nat)
    requires Matrix(x, d) && i < |x| == |labels| && c in labels
    ensures Size(labels, c) > 0.0
    ensures IsMean(MeanDistance(CosineDistance(x, d), labels, i, c), Size(labels, c), Spread(x, labels, i, c))
  {
    CountPositive(labels, c);
    CountIsSize(labels, c);
    DistanceIsSpread(x, labels, i, c, d);
    hide Size, Spread, DistanceTo, IsMean;
    QuotientTimes(Spread(x, labels, i, c), Size(labels, c));
  }

  lemma ContrastIs(a: real, b: real)
    ensures IsContrast(a, b, Contrast(a, b))
  {
    QuotientTimes(b - a, Greatest(a, b, 0.000000000001));
  }

  lemma BelowMean(a: real, mean: real, size: real, total: real)
    requires a <= mean && size >= 0.0 && IsMean(mean, size, total)
    ensures AtMostMean(a, size, total)
  {
    Scale(size, a, mean);
  }

  /** The least mean distance to another cluster, in terms of sums and sizes. */
  lemma NearestOtherIs(x: seq<Vec>, labels: Labels, i: nat, d: nat, b: real)
    requires Matrix(x, d) && i < |x| == |labels|
    requires NearestOther(CosineDistance(x, d), labels, i, Unique(labels)) == Some(b)
    ensures IsNearestMean(x, labels, i, b)
  {
    hide Size, Spread, MeanDistance, IsMean, AtMostMean;
    var dist := CosineDistance(x, d);
    var best :| best in Unique(labels) && best != labels[i] && b == MeanDistance(dist, labels, i, best);
    MeanIs(x, labels, i, best, d);
    forall c | c in labels && c != labels[i] ensures AtMostMean(b, Size(labels, c), Spread(x, labels, i, c)) {
      assert c in Unique(labels);
      MeanIs(x, labels, i, c, d);
      BelowMean(b, MeanDistance(dist, labels, i, c), Size(labels, c), Spread(x, labels, i, c));
    }
  }

  lemma OwnMeanIs(x: seq<Vec>, labels: Labels, i: nat, d: nat)
    requires Matrix(x, d) && i < |x| == |labels| && CountOf(labels, labels[i]) > 1
    ensures IsOwnMean(x, labels, i, DistanceTo(CosineDistance(x, d), labels, i, labels[i], |labels|)
                                    / (CountOf(labels, labels[i]) - 1) as real)
  {
    CountIsSize(labels, labels[i]);
    DistanceIsSpread(x, labels, i, labels[i], d);
    hide Size, Spread, DistanceTo, CountOf, IsMean;
    QuotientTimes(Spread(x, labels, i, labels[i]), (CountOf(labels, labels[i]) - 1) as real);
  }

  lemma AloneIff(dist: Distance, labels: Labels, i: nat)
    requires i < |labels|
    ensures Alone(labels, i) <==> CountOf(labels, labels[i]) <= 1 || NearestOther(dist, labels, i, Unique(labels)).None?
  {
    CountIsSize(labels, labels[i]);
    hide Size, CountOf, NearestOther, Unique;
  }

  lemma ItemScoreIs(x: seq<Vec>, labels: Labels, i: nat, d: nat)
    requires Matrix(x, d) && i < |x| == |labels|
    ensures IsScore(x, labels, i, ItemScore(CosineDistance(x, d), labels, i))
  {
    hide DistanceTo, CountOf, Contrast, IsContrast, NearestOther, Unique, IsOwnMean, IsNearestMean, Alone;
    var dist := CosineDistance(x, d);
    AloneIff(dist, labels, i);
    if !Alone(labels, i) {
      OwnMeanIs(x, labels, i, d);
      var b := NearestOther(dist, labels, i, Unique(labels)).value;
      NearestOtherIs(x, labels, i, d, b);
      ContrastIs(DistanceTo(dist, labels, i, labels[i], |labels|) / (CountOf(labels, labels[i]) - 1) as real, b);
    }
  }

  lemma {:induction false} ScoreSumIs(dist: Distance, labels: Labels, n: nat, f: nat -> real)
    requires n <= |labels| && forall i: nat :: i < n ==> f(i) == ItemScore(dist, labels, i)
    ensures ScoreSum(dist, labels, n) == Sum(n, f)
  {
    hide ItemScore;
    if n > 0 {
      ScoreSumIs(dist, labels, n - 1, f);
    }
  }

  lemma {:induction false} OneClusterScoresZero(dist: Distance, labels: Labels, n: nat)
    requires n <= |labels| && |Unique(labels)| < 2
    ensures ScoreSum(dist, labels, n) == 0.0
  {
    if n > 0 {
      OneClusterScoresZero(dist, labels, n - 1);
      assert labels[n - 1] in Unique(labels);
    }
  }

  lemma NothingIsMean(size: real)
    ensures IsMean(0.0, size, 0.0)
  {}

  /** What the silhouette is, item by item, from the vectors and the labels alone. */
  lemma SilhouetteIs(x: seq<Vec>, labels: Labels, d: nat)
    requires Matrix(x, d) && |x| == |labels|
    ensures IsMeanScore(x, labels, Silhouette(CosineDistance(x, d), labels))
  {
    var dist := CosineDistance(x, d);
    var scores := (i: nat) => if i < |labels| then ItemScore(dist, labels, i) else 0.0;
    ScoreSumIs(dist, labels, |labels|, scores);
    if |Unique(labels)| < 2 {
      OneClusterScoresZero(dist, labels, |labels|);
    }
    hide ItemScore, IsScore, Unique, IsMean;
    forall i: nat | i < |x| ensures IsScore(x, labels, i, scores(i)) {
      ItemScoreIs(x, labels, i, d);
    }
    if |Unique(labels)| < 2 {
      NothingIsMean(|x| as real);
    } else {
      QuotientTimes(Sum(|x|, scores), |x| as real);
    }
    assert IsMean(Silhouette(dist, labels), |x| as real, Sum(|x|, scores));
  }

  /** Nearer, on average, to its own cluster than to any other. */
  ghost predicate NearOwn(x: seq<Vec>, labels: Labels, i: nat)
    requires i < |x| == |labels|
  {
    forall c :: c in labels && c != labels[i] ==>
      SmallerMean(Spread(x, labels, i, labels[i]), Size(labels, labels[i]) - 1.0, Spread(x, labels, i, c), Size(labels, c))
  }

  /** Nearer, on average, to some other cluster than to its own. */
  ghost predicate NearOther(x: seq<Vec>, labels: Labels, i: nat)
    requires i < |x| == |labels|
  {
    exists c :: c in labels && c != labels[i] &&
      SmallerMean(Spread(x, labels, i, c), Size(labels, c), Spread(x, labels, i, labels[i]), Size(labels, labels[i]) - 1.0)
  }

  ghost predicate WellSplit(x: seq<Vec>, labels: Labels)
    requires |x| == |labels|
  {
    forall i: nat :: i < |x| ==> !Alone(labels, i) && NearOwn(x, labels, i)
  }

  ghost predicate BadlySplit(x: seq<Vec>, labels: Labels)
    requires |x| == |labels|
  {
    forall i: nat :: i < |x| ==> !Alone(labels, i) && NearOther(x, labels, i)
  }

  lemma Divide(a: real, b: real, k: real)
    requires k > 0.0 && a * k < b * k
    ensures a < b
  {
    if a >= b {
      Scale(k, b, a);
      assert false;
    }
  }

  lemma ByMeans(a: real, m: real, p: real, b: real, n: real, q: real)
    requires m > 0.0 && n > 0.0 && AtMostMean(a, m, p) && IsMean(b, n, q) && SmallerMean(p, m, q, n)
    ensures a < b
  {
    Scale(n, a * m, p);
    Positive(m, n);
    assert a * (m * n) == n * (a * m) && b * (m * n) == (b * n) * m;
    Divide(a, b, m * n);
  }

  lemma ExactlyMean(a: real, m: real, p: real)
    requires IsMean(a, m, p)
    ensures AtMostMean(a, m, p)
  {}

  lemma SignOfScore(a: real, b: real, score: real)
    requires IsContrast(a, b, score)
    ensures (a < b ==> score > 0.0) && (b < a ==> score < 0.0)
  {
    var m := Greatest(a, b, 0.000000000001);
    if score <= 0.0 {
      Scale(m, score, 0.0);
    }
    if score >= 0.0 {
      Scale(m, 0.0, score);
    }
  }

  lemma SizeOfPresent(labels: Labels, c: int)
    requires c in labels
    ensures Size(labels, c) > 0.0
  {
    CountPositive(labels, c);
    CountIsSize(labels, c);
  }

  lemma NearOwnMeans(x: seq<Vec>, labels: Labels, i: nat, a: real, b: real)
    requires i < |x| == |labels| && IsOwnMean(x, labels, i, a) && IsNearestMean(x, labels, i, b)
    requires Size(labels, labels[i]) > 1.0 && NearOwn(x, labels, i)
    ensures a < b
  {
    hide Size, Spread, IsMean, AtMostMean, SmallerMean;
    var own := labels[i];
    var c :| c in labels && c != own && IsMean(b, Size(labels, c), Spread(x, labels, i, c));
    SizeOfPresent(labels, c);
    ExactlyMean(a, Size(labels, own) - 1.0, Spread(x, labels, i, own));
    ByMeans(a, Size(labels, own) - 1.0, Spread(x, labels, i, own), b, Size(labels, c), Spread(x, labels, i, c));
  }

  lemma NearOtherMeans(x: seq<Vec>, labels: Labels, i: nat, a: real, b: real)
    requires i < |x| == |labels| && IsOwnMean(x, labels, i, a) && IsNearestMean(x, labels, i, b)
    requires Size(labels, labels[i]) > 1.0 && NearOther(x, labels, i)
    ensures b < a
  {
    hide Size, Spread, IsMean, AtMostMean, SmallerMean;
    var own := labels[i];
    var c :| c in labels && c != own && SmallerMean(Spread(x, labels, i, c), Size(labels, c),
                                                    Spread(x, labels, i, own), Size(labels, own) - 1.0);
    SizeOfPresent(labels, c);
    ByMeans(b, Size(labels, c), Spread(x, labels, i, c), a, Size(labels, own) - 1.0, Spread(x, labels, i, own));
  }

  lemma SignOfItem(x: seq<Vec>, labels: Labels, i: nat, score: real)
    requires i < |x| == |labels| && IsScore(x, labels, i, score) && !Alone(labels, i)
    ensures (NearOwn(x, labels, i) ==> score > 0.0) && (NearOther(x, labels, i) ==> score < 0.0)
  {
    var a, b :| IsOwnMean(x, labels, i, a) && IsNearestMean(x, labels, i, b) && IsContrast(a, b, score);
    hide Size, Spread, IsContrast, IsOwnMean, IsNearestMean, NearOwn, NearOther;
    if NearOwn(x, labels, i) {
      NearOwnMeans(x, labels, i, a, b);
    }
    if NearOther(x, labels, i) {
      NearOtherMeans(x, labels, i, a, b);
    }
    SignOfScore(a, b, score);
  }

  lemma SignOfMean(mean: real, size: real, total: real)
    requires IsMean(mean, size, total) && size > 0.0
    ensures (total > 0.0 ==> mean > 0.0) && (total < 0.0 ==> mean < 0.0)
  {
    if mean <= 0.0 {
      Scale(size, mean, 0.0);
    }
    if mean >= 0.0 {
      Scale(size, 0.0, mean);
    }
  }

  /** A clear split has a silhouette above zero, a split against the distances one below. */
  lemma SignOfSilhouette(x: seq<Vec>, labels: Labels, s: real)
    requires x != [] && IsMeanScore(x, labels, s)
    ensures WellSplit(x, labels) ==> s > 0.0
    ensures BadlySplit(x, labels) ==> s < 0.0
  {
    hide IsScore, Alone, NearOwn, NearOther, IsMean;
    var scores: nat -> real :| IsMean(s, |x| as real, Sum(|x|, scores))
      && forall i: nat :: i < |x| ==> IsScore(x, labels, i, scores(i));
    SumSign(|x|, scores);
    SignOfMean(s, |x| as real, Sum(|x|, scores));
    if WellSplit(x, labels) {
      forall i: nat | i < |x| ensures scores(i) > 0.0 {
        SignOfItem(x, labels, i, scores(i));
      }
    }
    if BadlySplit(x, labels) {
      forall i: nat | i < |x| ensures scores(i) < 0.0 {
        SignOfItem(x, labels, i, scores(i));
      }
    }
  }

  /** The loop that fills the per-item scores and averages them. */
  method MeanSilhouette(norm: Vec -> real, raw: seq<Vec>, labels: Labels, ghost d: nat) returns (s: real)
    requires Matrix(raw, d) && |labels| == |raw|
    ensures s == Silhouette(CosineDistance(NormaliseRows(norm, raw), d), labels)
    ensures -1.0 <= s <= 1.0 && IsMeanScore(NormaliseRows(norm, raw), labels, s)
  {
    hide ItemScore, IsMeanScore;
    var dist := CosineDistance(NormaliseRows(norm, raw), d);
    SilhouetteInUnitRange(dist, labels);
    SilhouetteIs(NormaliseRows(norm, raw), labels, d);
    if |Unique(labels)| < 2 {
      return 0.0;
    }
    var scores := new real[|raw|](_ => 0.0);
    for i := 0 to |raw|
      invariant forall j :: 0 <= j < i ==> scores[j] == ItemScore(dist, labels, j)
    {
      scores[i] := ItemScore(dist, labels, i);
    }
    var total := 0.0;
    for i := 0 to |raw|
      invariant total == ScoreSum(dist, labels, i)
    {
      total := total + scores[i];
    }
    s := total / |raw| as real;
  }

  // ------------------------------------------------------------------ the profile

  datatype Profile = Profile(centroids: seq<Vec>, labels: Labels, sizes: seq<nat>, silhouette: Option<real>)

  function Sizes(labels: Labels, k: nat): (s: seq<nat>)
    ensures |s| == k
  {
    seq(k, c requires 0 <= c < k => CountOf(labels, c))
  }

  function Total(s: seq<nat>): nat {
    if s == [] then 0 else Total(s[..|s| - 1]) + s[|s| - 1]
  }

  predicate AllAtLeastTwo(s: seq<nat>) {
    forall c :: 0 <= c < |s| ==> s[c] >= 2
  }

  /** Labels in range: every item is counted in exactly one cluster. */
  lemma {:induction false} SizesSumToAll(labels: Labels, k: nat)
    requires InRange(labels, k)
    ensures Total(Sizes(labels, k)) == |labels|
  {
    if labels == [] {
      EmptySizes(k);
    } else {
      SizesSumToAll(labels[1..], k);
      OneMore(labels, k, k);
      assert Sizes(labels, k)[..k] == Sizes(labels, k);
      assert Sizes(labels[1..], k)[..k] == Sizes(labels[1..], k);
    }
  }

  lemma {:induction false} EmptySizes(k: nat)
    ensures Total(Sizes([], k)) == 0
  {
    if k > 0 {
      assert Sizes([], k)[..k - 1] == Sizes([], k - 1);
      EmptySizes(k - 1);
    }
  }

  lemma {:induction false} OneMore(labels: Labels, k: nat, n: nat)
    requires labels != [] && n <= k && 0 <= labels[0]
    ensures Total(Sizes(labels, k)[..n]) == Total(Sizes(labels[1..], k)[..n]) + if labels[0] < n then 1 else 0
  {
    if n > 0 {
      OneMore(labels, k, n - 1);
      assert Sizes(labels, k)[..n][..n - 1] == Sizes(labels, k)[..n - 1];
      assert Sizes(labels[1..], k)[..n][..n - 1] == Sizes(labels[1..], k)[..n - 1];
    }
  }

  ghost predicate Admissible(labels: Labels, k: nat) {
    AllAtLeastTwo(Sizes(labels, k))
  }

  /** No cluster has fewer than two items. */
  lemma AdmissibleIff(labels: Labels, k: nat)
    ensures Admissible(labels, k) <==> forall c :: 0 <= c < k ==> Size(labels, c) >= 2.0
  {
    hide Size, CountOf;
    forall c | 0 <= c < k ensures Sizes(labels, k)[c] as real == Size(labels, c) {
      CountIsSize(labels, c);
    }
  }

  function SumRows(x: seq<Vec>, d: nat): (s: Vec)
    requires Matrix(x, d)
    ensures |s| == d
  {
    if x == [] then Zero(d) else Plus(x[0], SumRows(x[1..], d))
  }

  ghost function SilhouetteOf(norm: Vec -> real, x: seq<Vec>, labels: Labels, d: nat): real
    requires Matrix(x, d)
  {
    Silhouette(CosineDistance(NormaliseRows(norm, x), d), labels)
  }

  /** One theme for the whole folder. */
  ghost predicate SingleTheme(p: Profile, n: nat, centre: Vec) {
    && p.sizes == [n] && p.silhouette == None && p.centroids == [centre]
    && |p.labels| == n && (forall i :: 0 <= i < n ==> p.labels[i] == 0)
  }

  /** A split the profile may report: the number of themes is k. */
  ghost predicate GoodSplit(norm: Vec -> real, x: seq<Vec>, p: Profile, k: nat, floor: real, d: nat)
    requires Matrix(x, d)
  {
    && |p.labels| == |x| && InRange(p.labels, k) && |p.centroids| == k && UnitRows(p.centroids)
    && p.sizes == Sizes(p.labels, k) && Total(p.sizes) == |x| && AllAtLeastTwo(p.sizes)
    && p.silhouette == Some(SilhouetteOf(norm, x, p.labels, d))
    && floor <= p.silhouette.value <= 1.0
  }

  const MAX_ITER: nat := 50

  /** What k-means gives for k themes. */
  ghost predicate IsTrial(norm: Vec -> real, x: seq<Vec>, k: nat, seeds: seq<seq<nat>>, d: nat, labels: Labels) {
    && x != [] && Matrix(x, d) && AllSeeds(seeds, |x|, k)
    && exists centroids :: IsBestRun(norm, NormaliseRows(norm, x), k, seeds, d, MAX_ITER, labels, centroids)
  }

  /** k-means for one k, and the profile it would give if no cluster is a singleton. */
  method TryThemes(norm: Vec -> real, x: seq<Vec>, k: nat, seeds: seq<seq<nat>>, d: nat)
    returns (labels: Labels, split: Option<Profile>)
    requires IsNorm(norm) && x != [] && Matrix(x, d) && 0 < k <= |x| && seeds != []
    requires AllSeeds(seeds, |x|, k)
    ensures |labels| == |x| && IsTrial(norm, x, k, seeds, d, labels)
    ensures split.Some? <==> Admissible(labels, k)
    ensures split.Some? ==>
              && split.value.labels == labels && split.value.silhouette.Some?
              && GoodSplit(norm, x, split.value, k, split.value.silhouette.value, d)
  {
    var centroids;
    labels, centroids := SphericalKMeans(norm, x, k, seeds, d, MAX_ITER);
    assert IsBestRun(norm, NormaliseRows(norm, x), k, seeds, d, MAX_ITER, labels, centroids);
    hide IsBestRun;
    var sizes := Sizes(labels, k);
    if !AllAtLeastTwo(sizes) {
      return labels, None;
    }
    SizesSumToAll(labels, k);
    var s := MeanSilhouette(norm, x, labels, d);
    split := Some(Profile(centroids, labels, sizes, Some(s)));
  }

  /** `best` is a split with the greatest silhouette among the admissible trials so far. */
  ghost predicate BestOf(norm: Vec -> real, x: seq<Vec>, trials: seq<Labels>, best: Option<Profile>, d: nat)
    requires Matrix(x, d)
  {
    match best
    case None => forall i: nat | i < |trials| :: !Admissible(trials[i], i + 2)
    case Some(q) =>
      && 2 <= |q.sizes| < |trials| + 2 && q.labels == trials[|q.sizes| - 2] && q.silhouette.Some?
      && GoodSplit(norm, x, q, |q.sizes|, q.silhouette.value, d)
      && forall i: nat | i < |trials| && Admissible(trials[i], i + 2) ::
           SilhouetteOf(norm, x, trials[i], d) <= q.silhouette.value
           && (i < |q.sizes| - 2 ==> SilhouetteOf(norm, x, trials[i], d) < q.silhouette.value)
  }

  lemma BestOfExtends(norm: Vec -> real, x: seq<Vec>, trials: seq<Labels>, best: Option<Profile>,
                      labels: Labels, split: Option<Profile>, best': Option<Profile>, d: nat)
    requires Matrix(x, d) && BestOf(norm, x, trials, best, d)
    requires split.Some? <==> Admissible(labels, |trials| + 2)
    requires split.Some? ==>
               && split.value.labels == labels && split.value.silhouette.Some?
               && GoodSplit(norm, x, split.value, |trials| + 2, split.value.silhouette.value, d)
    requires best' == if split.Some? && (best.None? || split.value.silhouette.value > best.value.silhouette.value)
                      then split else best
    ensures BestOf(norm, x, trials + [labels], best', d)
  {
    var more := trials + [labels];
    assert forall i: nat :: i < |trials| ==> more[i] == trials[i];
    assert more[|trials|] == labels;
  }

  function Cap(maxClusters: nat, n: nat, minClusterSize: nat): nat
    requires minClusterSize > 0
  {
    Smaller(maxClusters, n / minClusterSize)
  }

  /** The greatest number of themes within the limit for which every theme could have the least size. */
  lemma CapIsGreatest(maxClusters: nat, n: nat, minClusterSize: nat, k: nat)
    requires minClusterSize > 0
    ensures k <= Cap(maxClusters, n, minClusterSize) <==> k <= maxClusters && k * minClusterSize <= n
  {
    var q := n / minClusterSize;
    assert n == q * minClusterSize + n % minClusterSize;
    if k <= q {
      TimesAtMost(k, q, minClusterSize);
    } else {
      TimesAtMost(q + 1, k, minClusterSize);
      assert (q + 1) * minClusterSize == q * minClusterSize + minClusterSize;
    }
  }

  lemma TimesAtMost(a: nat, b: nat, m: nat)
    requires a <= b
    ensures a * m <= b * m
  {}

  lemma {:induction false} SumRowsAt(x: seq<Vec>, d: nat, j: nat, f: nat -> real)
    requires Matrix(x, d) && j < d && forall i: nat :: i < |x| ==> f(i) == x[i][j]
    ensures SumRows(x, d)[j] == Sum(|x|, f)
  {
    if x != [] {
      var g := (i: nat) => f(i + 1);
      SumRowsAt(x[1..], d, j, g);
      SumFirst(|x|, f, g);
    }
  }

  /** The profile chosen from the trials for k = 2, 3, ...: the split with the greatest silhouette among
      the admissible ones if that clears the floor, and otherwise one theme. */
  ghost predicate ChosenFrom(norm: Vec -> real, x: seq<Vec>, trials: seq<Labels>, floor: real, d: nat, p: Profile)
    requires Matrix(x, d)
  {
    && (SingleTheme(p, |x|, Normalise(norm, SumRows(x, d))) || (2 <= |p.sizes| <= |trials| + 1 && p.labels == trials[|p.sizes| - 2]
                                && GoodSplit(norm, x, p, |p.sizes|, floor, d)))
    && forall i: nat | i < |trials| && Admissible(trials[i], i + 2) ::
         if |p.sizes| == 1 then SilhouetteOf(norm, x, trials[i], d) < floor
         else p.silhouette.Some? && SilhouetteOf(norm, x, trials[i], d) <= p.silhouette.value
              && (i < |p.sizes| - 2 ==> SilhouetteOf(norm, x, trials[i], d) < p.silhouette.value)
  }

  /** The labellings k-means gives for k = 2 up to the cap. */
  ghost predicate AreTrials(norm: Vec -> real, x: seq<Vec>, seeds: nat -> seq<seq<nat>>, d: nat, trials: seq<Labels>, cap: nat) {
    |trials| == (if cap < 2 then 0 else cap - 1) && AllTrials(norm, x, seeds, d, trials)
  }

  ghost predicate AllTrials(norm: Vec -> real, x: seq<Vec>, seeds: nat -> seq<seq<nat>>, d: nat, trials: seq<Labels>) {
    forall i: nat | i < |trials| :: IsTrial(norm, x, i + 2, seeds(i + 2), d, trials[i])
  }

  lemma OneMoreTrial(norm: Vec -> real, x: seq<Vec>, seeds: nat -> seq<seq<nat>>, d: nat, trials: seq<Labels>, labels: Labels)
    requires AllTrials(norm, x, seeds, d, trials) && IsTrial(norm, x, |trials| + 2, seeds(|trials| + 2), d, labels)
    ensures AllTrials(norm, x, seeds, d, trials + [labels])
  {
    hide IsTrial;
  }

  /** Tries every k from 2 up to the cap and keeps the first best admissible silhouette. */
  method BuildProfile(norm: Vec -> real, folder: seq<Vec>, maxClusters: nat, minClusterSize: nat, floor: real,
                      seeds: nat -> seq<seq<nat>>, d: nat)
    returns (p: Profile)
    requires IsNorm(norm) && folder != [] && Matrix(folder, d) && minClusterSize > 0
    requires forall k :: 2 <= k <= Cap(maxClusters, |folder|, minClusterSize) ==>
               seeds(k) != [] && AllSeeds(seeds(k), |folder|, k)
    ensures var x := NormaliseRows(norm, folder);
            exists trials :: AreTrials(norm, x, seeds, d, trials, Cap(maxClusters, |folder|, minClusterSize))
                             && ChosenFrom(norm, x, trials, floor, d, p)
  {
    var x := NormaliseRows(norm, folder);
    var n := |x|;
    var one := Profile([Normalise(norm, SumRows(x, d))], seq(n, _ => 0), [n], None);
    var cap := Cap(maxClusters, n, minClusterSize);
    if cap < 2 {
      NoTrials(norm, x, seeds, d);
      Choose(norm, x, [], None, floor, d, one);
      assert AreTrials(norm, x, seeds, d, [], cap);
      return one;
    }
    CapAtMost(maxClusters, n, minClusterSize);
    hide Cap, AreTrials, BestOf, ChosenFrom;
    var best, trials := BestSplit(norm, x, cap, seeds, d);
    Choose(norm, x, trials, best, floor, d, one);
    p := if best.None? || best.value.silhouette.value < floor then one else best.value;
  }

  /** The loop over k. */
  method BestSplit(norm: Vec -> real, x: seq<Vec>, cap: nat, seeds: nat -> seq<seq<nat>>, d: nat)
    returns (best: Option<Profile>, ghost trials: seq<Labels>)
    requires IsNorm(norm) && x != [] && Matrix(x, d) && 2 <= cap <= |x|
    requires forall k :: 2 <= k <= cap ==> seeds(k) != [] && AllSeeds(seeds(k), |x|, k)
    ensures AreTrials(norm, x, seeds, d, trials, cap) && BestOf(norm, x, trials, best, d)
  {
    trials, best := [], None;
    NoTrials(norm, x, seeds, d);
    hide *;
    for k := 2 to cap + 1
      invariant |trials| == k - 2 && BestOf(norm, x, trials, best, d)
      invariant best.Some? ==> best.value.silhouette.Some?
      invariant AllTrials(norm, x, seeds, d, trials)
    {
      var labels, split := TryThemes(norm, x, k, seeds(k), d);
      ghost var before := best;
      if split.Some? && (best.None? || split.value.silhouette.value > best.value.silhouette.value) {
        best := split;
      }
      BestOfExtends(norm, x, trials, before, labels, split, best, d);
      OneMoreTrial(norm, x, seeds, d, trials, labels);
      trials := trials + [labels];
    }
    TrialsDone(norm, x, seeds, d, trials, cap);
  }

  lemma TrialsDone(norm: Vec -> real, x: seq<Vec>, seeds: nat -> seq<seq<nat>>, d: nat, trials: seq<Labels>, cap: nat)
    requires AllTrials(norm, x, seeds, d, trials) && |trials| == cap - 1
    ensures AreTrials(norm, x, seeds, d, trials, cap)
  {
  }

  lemma NoTrials(norm: Vec -> real, x: seq<Vec>, seeds: nat -> seq<seq<nat>>, d: nat)
    requires Matrix(x, d)
    ensures BestOf(norm, x, [], None, d) && AllTrials(norm, x, seeds, d, [])
  {
  }

  /** The final choice between the best split and one theme. */
  lemma Choose(norm: Vec -> real, x: seq<Vec>, trials: seq<Labels>, best: Option<Profile>, floor: real, d: nat, one: Profile)
    requires Matrix(x, d) && BestOf(norm, x, trials, best, d) && SingleTheme(one, |x|, Normalise(norm, SumRows(x, d)))
    ensures best.Some? ==> best.value.silhouette.Some?
    ensures ChosenFrom(norm, x, trials, floor, d,
                       if best.None? || best.value.silhouette.value < floor then one else best.value)
  {
    hide Admissible, SilhouetteOf;
  }

  lemma CapAtMost(maxClusters: nat, n: nat, m: nat)
    requires m > 0
    ensures Cap(maxClusters, n, m) <= n
  {
    var q := n / m;
    assert n == q * m + n % m;
    Grows(q, m);
  }

  lemma Grows(q: nat, m: nat)
    requires m > 0
    ensures q * m >= q
  {}
}
