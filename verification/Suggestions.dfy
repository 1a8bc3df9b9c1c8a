/** Suggestions for a folder: themes, candidates near them, their heat, and the pick among them. */
module Suggestions {

  import opened Basics
  import opened Vectors
  import KMeans
  import Mmr
  import Folder
  import Suggest

  const VERY_YES_WEIGHT: real := 2.0
  const VERY_NO_PENALTY: real := 0.5
  const MIN_CLUSTER_SIZE: nat := 4
  const MIN_SILHOUETTE: real := 0.15

  datatype Verdict = VeryNo | No | Yes | VeryYes

  datatype Row = Row(post: int, embedding: Vec)

  datatype Result = EmptyFolder | Items(posts: seq<int>)

  datatype Params = Params(k: int, knn: int, maxClusters: nat, diversity: real)

  ghost predicate DistinctPosts(rows: seq<Row>) {
    forall i, j :: 0 <= i < j < |rows| ==> rows[i].post != rows[j].post
  }

  ghost predicate Covers(rows: seq<Row>, post: int) {
    exists i :: 0 <= i < |rows| && rows[i].post == post
  }

  function Rated(verdicts: map<int, Verdict>, wanted: set<Verdict>): set<int> {
    set p | p in verdicts && verdicts[p] in wanted
  }

  /** Folder posts and everything marked yes: the positives. */
  function Positives(folder: set<int>, verdicts: map<int, Verdict>): set<int> {
    folder + Rated(verdicts, {Yes, VeryYes})
  }

  function Excluded(folder: set<int>, verdicts: map<int, Verdict>): set<int> {
    Positives(folder, verdicts) + Rated(verdicts, {No, VeryNo})
  }

  /** Exactly the posts of the folder and those with any verdict are excluded; exactly the posts of the
      folder and those marked yes or very yes are positives. */
  lemma EveryRatedPostExcluded(folder: set<int>, verdicts: map<int, Verdict>)
    ensures Excluded(folder, verdicts) == folder + verdicts.Keys
    ensures forall p :: p in Positives(folder, verdicts) <==>
              p in folder || (p in verdicts && (verdicts[p] == Yes || verdicts[p] == VeryYes))
  {
    forall p | p in verdicts
      ensures p in Excluded(folder, verdicts)
    {
      match verdicts[p]
      case Yes => case VeryYes => case No => case VeryNo =>
    }
  }

  /** The nearest-candidate query returns no excluded post and vectors of one width. */
  ghost predicate Honours(nearest: (Vec, set<int>) -> seq<Row>, d: nat) {
    forall q: Vec, ex: set<int>, i: nat | i < |nearest(q, ex)| ::
      nearest(q, ex)[i].post !in ex && |nearest(q, ex)[i].embedding| == d
  }

  /** One of the queries returned this row. */
  ghost predicate Found(centroids: seq<Vec>, exclude: set<int>, nearest: (Vec, set<int>) -> seq<Row>, row: Row) {
    exists c :: 0 <= c < |centroids| && row in nearest(centroids[c], exclude)
  }

  /** One query per theme; the first row seen for a post wins. */
  method Gather(centroids: seq<Vec>, exclude: set<int>, nearest: (Vec, set<int>) -> seq<Row>, ghost d: nat)
    returns (rows: seq<Row>)
    requires Honours(nearest, d)
    ensures DistinctPosts(rows)
    ensures forall i :: 0 <= i < |rows| ==> rows[i].post !in exclude && |rows[i].embedding| == d
    ensures forall i :: 0 <= i < |rows| ==> Found(centroids, exclude, nearest, rows[i])
    ensures forall c, j :: 0 <= c < |centroids| && 0 <= j < |nearest(centroids[c], exclude)| ==>
              Covers(rows, nearest(centroids[c], exclude)[j].post)
  {
    rows := [];
    var seen: set<int> := {};
    for c := 0 to |centroids|
      invariant DistinctPosts(rows)
      invariant forall i :: 0 <= i < |rows| ==>
        rows[i].post !in exclude && |rows[i].embedding| == d && rows[i].post in seen
      invariant forall i :: 0 <= i < |rows| ==> Found(centroids, exclude, nearest, rows[i])
      invariant forall p :: p in seen ==> Covers(rows, p)
      invariant forall q, j :: 0 <= q < c && 0 <= j < |nearest(centroids[q], exclude)| ==>
        nearest(centroids[q], exclude)[j].post in seen
    {
      var batch := nearest(centroids[c], exclude);
      ghost var before := seen;
      for j := 0 to |batch|
        invariant DistinctPosts(rows) && before <= seen
        invariant forall i :: 0 <= i < |rows| ==>
          rows[i].post !in exclude && |rows[i].embedding| == d && rows[i].post in seen
        invariant forall i :: 0 <= i < |rows| ==> Found(centroids, exclude, nearest, rows[i])
        invariant forall p :: p in seen ==> Covers(rows, p)
        invariant forall i :: 0 <= i < j ==> batch[i].post in seen
      {
        if batch[j].post !in seen {
          ghost var old_rows := rows;
          assert batch[j] in batch && Found(centroids, exclude, nearest, batch[j]);
          rows := rows + [batch[j]];
          seen := seen + {batch[j].post};
          assert rows[|old_rows|].post == batch[j].post;
          assert forall i :: 0 <= i < |old_rows| ==> rows[i] == old_rows[i];
        }
      }
    }
    forall c, j | 0 <= c < |centroids| && 0 <= j < |nearest(centroids[c], exclude)|
      ensures Covers(rows, nearest(centroids[c], exclude)[j].post)
    {
      assert nearest(centroids[c], exclude)[j].post in seen;
    }
  }

  function Embeddings(rows: seq<Row>): (r: seq<Vec>)
    ensures |r| == |rows| && forall i :: 0 <= i < |r| ==> r[i] == rows[i].embedding
  {
    seq(|rows|, i requires 0 <= i < |rows| => rows[i].embedding)
  }

  // ------------------------------------------------------------------- heat of a candidate

  /** Similarities of a candidate to some stories, both normalised. */
  function SimsTo(norm: Vec -> real, candidate: Vec, stories: seq<Vec>, ghost d: nat): (r: seq<real>)
    requires |candidate| == d && Matrix(stories, d)
    ensures |r| == |stories|
  {
    var (c, p) := (Normalise(norm, candidate), NormaliseRows(norm, stories));
    seq(|stories|, i requires 0 <= i < |stories| => Dot(c, p[i]))
  }

  lemma CosineOf(norm: Vec -> real, a: Vec, b: Vec)
    requires |a| == |b| && norm(a) != 0.0 && norm(b) != 0.0
    ensures Dot(Normalise(norm, a), Normalise(norm, b)) * norm(a) * norm(b) == Dot(a, b)
  {
    hide Dot, Over;
    DotOver(a, norm(a), Normalise(norm, b));
    DotCommutes(a, Normalise(norm, b));
    DotOver(b, norm(b), a);
    DotCommutes(a, b);
  }

  /** The similarities are cosines: times the two norms they are dot products. */
  lemma SimsAreCosines(norm: Vec -> real, candidate: Vec, stories: seq<Vec>, d: nat, i: nat)
    requires |candidate| == d && Matrix(stories, d) && i < |stories|
    requires norm(candidate) != 0.0 && norm(stories[i]) != 0.0
    ensures SimsTo(norm, candidate, stories, d)[i] * norm(candidate) * norm(stories[i]) == Dot(candidate, stories[i])
  {
    hide Dot, Normalise;
    CosineOf(norm, candidate, stories[i]);
  }

  /** A story marked "very yes" counts double. */
  function Weights(verdicts: map<int, Verdict>, ids: seq<int>): (w: seq<real>)
    ensures |w| == |ids| && Suggest.AllPositive(w)
    ensures forall i :: 0 <= i < |ids| ==> w[i] == 2.0 || w[i] == 1.0
    ensures forall i :: 0 <= i < |ids| ==> (w[i] == 2.0 <==> ids[i] in verdicts && verdicts[ids[i]] == VeryYes)
  {
    seq(|ids|, i requires 0 <= i < |ids| =>
      if ids[i] in verdicts && verdicts[ids[i]].VeryYes? then VERY_YES_WEIGHT else 1.0)
  }

  /** What a candidate is ranked by: the weighted mean similarity to its max(1, min(knn, n)) nearest
      folder stories, less the penalty for being like an avoided one. */
  ghost predicate RankedBy(norm: Vec -> real, candidate: Vec, folder: seq<Vec>, weights: seq<real>, knn: int,
                           avoid: seq<Vec>, d: nat, heat: real)
    requires |candidate| == d && Matrix(folder, d) && Matrix(avoid, d)
  {
    var sims := SimsTo(norm, candidate, folder, d);
    exists top :: IsNeighbourhood(sims, top, weights, knn)
      && heat == Suggest.Heat(sims, weights, top) - Suggest.AvoidPenalty(SimsTo(norm, candidate, avoid, d), VERY_NO_PENALTY)
  }

  ghost predicate IsNeighbourhood(sims: seq<real>, top: seq<nat>, weights: seq<real>, knn: int) {
    && |top| == Suggest.HowMany(knn, |sims|) && top != []
    && Suggest.Nearest(sims, top) && Suggest.PositiveAt(weights, top)
  }

  /** Likeness to a rejected story lowers the rank: half the greatest similarity to an avoided story, if
      it is above zero, is taken off the weighted mean. */
  lemma PenaltyLowersHeat(norm: Vec -> real, candidate: Vec, folder: seq<Vec>, weights: seq<real>, knn: int,
                          avoid: seq<Vec>, d: nat, heat: real)
    requires |candidate| == d && Matrix(folder, d) && Matrix(avoid, d)
    requires RankedBy(norm, candidate, folder, weights, knn, avoid, d, heat)
    ensures exists top, m :: IsNeighbourhood(SimsTo(norm, candidate, folder, d), top, weights, knn)
              && Suggest.IsHighest(SimsTo(norm, candidate, avoid, d), m)
              && heat == Suggest.Heat(SimsTo(norm, candidate, folder, d), weights, top) - 0.5 * m
  {
    hide SimsTo, Suggest.Heat, Suggest.IsHighest;
    var sims, sins := SimsTo(norm, candidate, folder, d), SimsTo(norm, candidate, avoid, d);
    var top :| IsNeighbourhood(sims, top, weights, knn)
      && heat == Suggest.Heat(sims, weights, top) - Suggest.AvoidPenalty(sins, VERY_NO_PENALTY);
    var m :| Suggest.IsHighest(sins, m) && Suggest.AvoidPenalty(sins, VERY_NO_PENALTY) == VERY_NO_PENALTY * m;
  }

  method RankingHeat(norm: Vec -> real, candidate: Vec, folder: seq<Vec>, weights: seq<real>, knn: int, avoid: seq<Vec>,
                     ghost d: nat) returns (heat: real)
    requires |candidate| == d && folder != [] && Matrix(folder, d) && Matrix(avoid, d)
    requires |weights| == |folder| && Suggest.AllPositive(weights)
    ensures RankedBy(norm, candidate, folder, weights, knn, avoid, d, heat)
  {
    hide SimsTo, Suggest.Heat, Suggest.AvoidPenalty, Suggest.Nearest, Suggest.PositiveAt;
    var sims := SimsTo(norm, candidate, folder, d);
    var top, density := Suggest.Density(sims, knn, weights);
    assert IsNeighbourhood(sims, top, weights, knn);
    heat := density - Suggest.AvoidPenalty(SimsTo(norm, candidate, avoid, d), VERY_NO_PENALTY);
  }

  ghost predicate AllRankedBy(norm: Vec -> real, candidates: seq<Vec>, folder: seq<Vec>, weights: seq<real>, knn: int,
                              avoid: seq<Vec>, d: nat, heats: seq<real>)
    requires Matrix(candidates, d) && Matrix(folder, d) && Matrix(avoid, d)
  {
    && |heats| == |candidates|
    && forall i :: 0 <= i < |heats| ==> RankedBy(norm, candidates[i], folder, weights, knn, avoid, d, heats[i])
  }

  method RankingHeats(norm: Vec -> real, candidates: seq<Vec>, folder: seq<Vec>, weights: seq<real>, knn: int,
                      avoid: seq<Vec>, ghost d: nat) returns (heats: seq<real>)
    requires Matrix(candidates, d) && folder != [] && Matrix(folder, d) && Matrix(avoid, d)
    requires |weights| == |folder| && Suggest.AllPositive(weights)
    ensures AllRankedBy(norm, candidates, folder, weights, knn, avoid, d, heats)
  {
    hide RankedBy, Suggest.AllPositive;
    heats := [];
    for i := 0 to |candidates|
      invariant |heats| == i
      invariant forall j :: 0 <= j < i ==> RankedBy(norm, candidates[j], folder, weights, knn, avoid, d, heats[j])
    {
      var heat := RankingHeat(norm, candidates[i], folder, weights, knn, avoid, d);
      heats := heats + [heat];
    }
  }

  // ---------------------------------------------------------------------- the whole route

  /** The profile of a folder: chosen from what k-means gives for every number of themes up to the cap. */
  ghost predicate IsProfile(norm: Vec -> real, folder: seq<Vec>, maxClusters: nat, seeds: nat -> seq<seq<nat>>, d: nat,
                            p: Folder.Profile)
    requires Matrix(folder, d)
  {
    var x := NormaliseRows(norm, folder);
    exists trials :: Folder.AreTrials(norm, x, seeds, d, trials, Folder.Cap(maxClusters, |folder|, MIN_CLUSTER_SIZE))
                     && Folder.ChosenFrom(norm, x, trials, MIN_SILHOUETTE, d, p)
  }

  /** How the suggestions came about: themes of the folder, rows found near their centroids, the heat of
      each row, and the greedy picks by heat against similarity to what was picked before. */
  ghost predicate ChosenBy(norm: Vec -> real, folder: seq<Vec>, weights: seq<real>, avoid: seq<Vec>, exclude: set<int>,
                           seeds: nat -> seq<seq<nat>>, nearest: (Vec, set<int>) -> seq<Row>, params: Params, d: nat,
                           profile: Folder.Profile, rows: seq<Row>, heats: seq<real>, picked: seq<nat>, posts: seq<int>)
    requires Matrix(folder, d) && Matrix(avoid, d)
  {
    && IsProfile(norm, folder, params.maxClusters, seeds, d, profile)
    && DistinctPosts(rows) && Matrix(Embeddings(rows), d)
    && (forall i :: 0 <= i < |rows| ==> Found(profile.centroids, exclude, nearest, rows[i]))
    && AllRankedBy(norm, NormaliseRows(norm, Embeddings(rows)), folder, weights, params.knn, avoid, d, heats)
    && |picked| == Mmr.Count(params.k, |rows|) && Mmr.Indices(picked, |rows|)
    && Mmr.Greedy(heats, Mmr.Cosines(NormaliseRows(norm, NormaliseRows(norm, Embeddings(rows))), d),
                  Mmr.TradeOff(1.0 - params.diversity), picked)
    && Mmr.WeighsFairly(heats, Mmr.Cosines(NormaliseRows(norm, NormaliseRows(norm, Embeddings(rows))), d),
                        1.0 - params.diversity, picked)
    && |posts| == |picked| && forall i :: 0 <= i < |picked| ==> posts[i] == rows[picked[i]].post
  }

  /** With no diversity asked for, the suggestions are the hottest rows, hottest first. */
  lemma NoDiversityIsTopK(norm: Vec -> real, folder: seq<Vec>, weights: seq<real>, avoid: seq<Vec>, exclude: set<int>,
                          seeds: nat -> seq<seq<nat>>, nearest: (Vec, set<int>) -> seq<Row>, params: Params, d: nat,
                          profile: Folder.Profile, rows: seq<Row>, heats: seq<real>, picked: seq<nat>, posts: seq<int>)
    requires Matrix(folder, d) && Matrix(avoid, d) && params.diversity == 0.0 && Distinct(picked)
    requires ChosenBy(norm, folder, weights, avoid, exclude, seeds, nearest, params, d, profile, rows, heats, picked, posts)
    ensures |heats| == |rows| && Mmr.Indices(picked, |rows|)
    ensures forall i, j :: 0 <= i < j < |picked| ==> heats[picked[j]] <= heats[picked[i]]
    ensures forall i: nat, j :: i < |heats| && i !in picked && 0 <= j < |picked| ==> heats[i] <= heats[picked[j]]
  {
    hide IsProfile, Found, RankedBy, Mmr.Greedy, Mmr.WeighsFairly;
    Mmr.PureHeatIsTopK(heats, Mmr.Cosines(NormaliseRows(norm, NormaliseRows(norm, Embeddings(rows))), d), picked);
  }

  /** Every number of themes that is tried has seeds to start from. */
  ghost predicate SeedsReady(seeds: nat -> seq<seq<nat>>, maxClusters: nat, n: nat) {
    forall k :: 2 <= k <= Folder.Cap(maxClusters, n, MIN_CLUSTER_SIZE) ==>
      seeds(k) != [] && KMeans.AllSeeds(seeds(k), n, k)
  }

  /** `ids` and `vectors` are the positive posts that have an embedding, `avoid` the embeddings of the
      stories marked "very no". The ghost results show how the choice was made. */
  method SuggestForFolder(norm: Vec -> real, folder: set<int>, verdicts: map<int, Verdict>, ids: seq<int>, vectors: seq<Vec>,
                          avoid: seq<Vec>, seeds: nat -> seq<seq<nat>>, nearest: (Vec, set<int>) -> seq<Row>,
                          params: Params, d: nat)
    returns (r: Result, ghost profile: Folder.Profile, ghost rows: seq<Row>, ghost heats: seq<real>, ghost picked: seq<nat>)
    requires IsNorm(norm) && Honours(nearest, d) && |ids| == |vectors| && Matrix(vectors, d) && Matrix(avoid, d)
    requires SeedsReady(seeds, params.maxClusters, |vectors|)
    ensures r.EmptyFolder? <==> ids == []
    ensures r.Items? ==>
              ChosenBy(norm, NormaliseRows(norm, vectors), Weights(verdicts, ids), avoid, Excluded(folder, verdicts), seeds,
                       nearest, params, d, profile, rows, heats, picked, r.posts)
    ensures r.Items? ==>
              && |r.posts| <= (if params.k < 0 then 0 else params.k) && Distinct(r.posts)
              && (forall i :: 0 <= i < |r.posts| ==> r.posts[i] !in folder && r.posts[i] !in verdicts)
  {
    profile, rows, heats, picked := Folder.Profile([], [], [], None), [], [], [];
    if ids == [] {
      return EmptyFolder, profile, rows, heats, picked;
    }
    hide *;
    var x := NormaliseRows(norm, vectors);
    NormalisedMatrix(norm, vectors, d);
    var exclude := Excluded(folder, verdicts);
    var themes := Themes(norm, x, params, seeds, d);
    var candidates := Gather(themes.centroids, exclude, nearest, d);
    EmbeddingsMatrix(candidates, d);
    var weights := Weights(verdicts, ids);
    var warmth, chosen := PickRows(norm, candidates, x, weights, params, avoid, d);
    var posts := PostsAt(candidates, chosen);
    NothingRated(folder, verdicts, candidates, chosen, posts, params.k);
    r, profile, rows, heats, picked := Items(posts), themes, candidates, warmth, chosen;
    Assemble(norm, x, weights, avoid, exclude, seeds, nearest, params, d, themes, candidates, warmth, chosen, posts);
  }

  function PostsAt(rows: seq<Row>, picked: seq<nat>): (r: seq<int>)
    requires Mmr.Indices(picked, |rows|)
    ensures |r| == |picked| && forall i :: 0 <= i < |r| ==> picked[i] < |rows| && r[i] == rows[picked[i]].post
  {
    seq(|picked|, i requires 0 <= i < |picked| => rows[picked[i]].post)
  }

  lemma NormalisedMatrix(norm: Vec -> real, x: seq<Vec>, d: nat)
    requires Matrix(x, d)
    ensures Matrix(NormaliseRows(norm, x), d) && |NormaliseRows(norm, x)| == |x|
  {
  }

  lemma EmbeddingsMatrix(rows: seq<Row>, d: nat)
    requires forall i :: 0 <= i < |rows| ==> |rows[i].embedding| == d
    ensures Matrix(Embeddings(rows), d)
  {
  }

  lemma Assemble(norm: Vec -> real, folder: seq<Vec>, weights: seq<real>, avoid: seq<Vec>, exclude: set<int>,
                 seeds: nat -> seq<seq<nat>>, nearest: (Vec, set<int>) -> seq<Row>, params: Params, d: nat,
                 profile: Folder.Profile, rows: seq<Row>, heats: seq<real>, picked: seq<nat>, posts: seq<int>)
    requires Matrix(folder, d) && Matrix(avoid, d) && IsProfile(norm, folder, params.maxClusters, seeds, d, profile)
    requires DistinctPosts(rows) && Matrix(Embeddings(rows), d)
    requires forall i :: 0 <= i < |rows| ==> Found(profile.centroids, exclude, nearest, rows[i])
    requires Matrix(NormaliseRows(norm, Embeddings(rows)), d)
    requires AllRankedBy(norm, NormaliseRows(norm, Embeddings(rows)), folder, weights, params.knn, avoid, d, heats)
    requires |picked| == Mmr.Count(params.k, |rows|) && Mmr.Indices(picked, |rows|) && |heats| == |rows|
    requires Matrix(NormaliseRows(norm, NormaliseRows(norm, Embeddings(rows))), d) && Mmr.Indices(picked, |heats|)
    requires Mmr.Greedy(heats, Mmr.Cosines(NormaliseRows(norm, NormaliseRows(norm, Embeddings(rows))), d),
                        Mmr.TradeOff(1.0 - params.diversity), picked)
    requires Mmr.WeighsFairly(heats, Mmr.Cosines(NormaliseRows(norm, NormaliseRows(norm, Embeddings(rows))), d),
                              1.0 - params.diversity, picked)
    requires |posts| == |picked| && forall i :: 0 <= i < |picked| ==> picked[i] < |rows| && posts[i] == rows[picked[i]].post
    ensures ChosenBy(norm, folder, weights, avoid, exclude, seeds, nearest, params, d, profile, rows, heats, picked, posts)
  {
    hide IsProfile, Found, AllRankedBy, Mmr.Greedy, Mmr.Cosines, Mmr.TradeOff, Mmr.Count, Mmr.WeighsFairly;
  }

  method Themes(norm: Vec -> real, x: seq<Vec>, params: Params, seeds: nat -> seq<seq<nat>>, d: nat)
    returns (p: Folder.Profile)
    requires IsNorm(norm) && x != [] && Matrix(x, d)
    requires SeedsReady(seeds, params.maxClusters, |x|)
    ensures IsProfile(norm, x, params.maxClusters, seeds, d, p)
  {
    hide Folder.Cap, Folder.AreTrials, Folder.ChosenFrom, IsNorm, KMeans.AllSeeds;
    p := Folder.BuildProfile(norm, x, params.maxClusters, MIN_CLUSTER_SIZE, MIN_SILHOUETTE, seeds, d);
  }

  /** Heats and picks for the gathered rows. */
  method PickRows(norm: Vec -> real, rows: seq<Row>, folder: seq<Vec>, weights: seq<real>, params: Params, avoid: seq<Vec>,
                  ghost d: nat) returns (heats: seq<real>, picked: seq<nat>)
    requires Matrix(Embeddings(rows), d) && folder != [] && Matrix(folder, d) && Matrix(avoid, d)
    requires |weights| == |folder| && Suggest.AllPositive(weights)
    ensures AllRankedBy(norm, NormaliseRows(norm, Embeddings(rows)), folder, weights, params.knn, avoid, d, heats)
    ensures |picked| == Mmr.Count(params.k, |rows|) && Mmr.Indices(picked, |rows|) && Distinct(picked)
    ensures |heats| == |rows| && Matrix(NormaliseRows(norm, Embeddings(rows)), d)
    ensures Matrix(NormaliseRows(norm, NormaliseRows(norm, Embeddings(rows))), d) && Mmr.Indices(picked, |heats|)
    ensures Mmr.Greedy(heats, Mmr.Cosines(NormaliseRows(norm, NormaliseRows(norm, Embeddings(rows))), d),
                       Mmr.TradeOff(1.0 - params.diversity), picked)
    ensures Mmr.WeighsFairly(heats, Mmr.Cosines(NormaliseRows(norm, NormaliseRows(norm, Embeddings(rows))), d),
                             1.0 - params.diversity, picked)
  {
    hide RankedBy, Suggest.AllPositive, Mmr.Greedy, Mmr.WeighsFairly;
    var matrix := NormaliseRows(norm, Embeddings(rows));
    heats := RankingHeats(norm, matrix, folder, weights, params.knn, avoid, d);
    picked := Mmr.Select(norm, heats, matrix, params.k, 1.0 - params.diversity, d);
  }

  /** Picks from rows with distinct, unexcluded posts are distinct and unrated. */
  lemma NothingRated(folder: set<int>, verdicts: map<int, Verdict>, rows: seq<Row>, picked: seq<nat>, posts: seq<int>, k: int)
    requires DistinctPosts(rows) && forall i :: 0 <= i < |rows| ==> rows[i].post !in Excluded(folder, verdicts)
    requires Mmr.Indices(picked, |rows|) && Distinct(picked) && |picked| == Mmr.Count(k, |rows|)
    requires |posts| == |picked| && forall i :: 0 <= i < |picked| ==> picked[i] < |rows| && posts[i] == rows[picked[i]].post
    ensures |posts| <= (if k < 0 then 0 else k) && Distinct(posts)
    ensures forall i :: 0 <= i < |posts| ==> posts[i] !in folder && posts[i] !in verdicts
  {
    EveryRatedPostExcluded(folder, verdicts);
    hide Excluded;
    forall i, j | 0 <= i < j < |posts| ensures posts[i] != posts[j] {
      assert picked[i] != picked[j];
    }
  }
}
