/** Maximal marginal relevance: heat against similarity to what is already picked,
    with the similarity to the picked set kept up to date incrementally. */
module Mmr {

  import opened Basics
  import opened Vectors

  /** Similarity of two candidates, by index. */
  type Sim = (nat, nat) -> real

  function Cosines(c: seq<Vec>, ghost d: nat): (sim: Sim)
    requires Matrix(c, d)
    ensures forall i: nat, j: nat :: i < |c| && j < |c| ==> sim(i, j) == Dot(c[i], c[j])
  {
    (i: nat, j: nat) => if i < |c| && j < |c| then Dot(c[i], c[j]) else 0.0
  }

  /** The greatest similarity of candidate i to any member of a non-empty picked list,
      recomputed from scratch. */
  ghost function MaxSim(sim: Sim, i: nat, picked: seq<nat>): (m: real)
    requires picked != []
    ensures forall j :: 0 <= j < |picked| ==> sim(i, picked[j]) <= m
    ensures exists j :: 0 <= j < |picked| && sim(i, picked[j]) == m
  {
    var n := |picked| - 1;
    var last := sim(i, picked[n]);
    if n == 0 then last
    else var m := MaxSim(sim, i, picked[..n]); if last > m then last else m
  }

  ghost predicate Indices(picked: seq<nat>, n: nat) {
    forall j :: 0 <= j < |picked| ==> picked[j] < n
  }

  ghost function Marginal(heat: seq<real>, sim: Sim, trade: (real, real) -> real, i: nat, picked: seq<nat>): real
    requires i < |heat| && picked != []
  {
    trade(heat[i], MaxSim(sim, i, picked))
  }

  /** The j-th pick is a best one among the candidates not yet picked, the earliest on ties:
      by heat alone for the first, by marginal relevance after that. */
  ghost predicate BestPick(heat: seq<real>, sim: Sim, trade: (real, real) -> real, picked: seq<nat>, j: nat)
    requires Indices(picked, |heat|) && j < |picked|
  {
    if j == 0 then
      forall i :: 0 <= i < |heat| ==>
        heat[i] <= heat[picked[0]] && (i < picked[0] ==> heat[i] < heat[picked[0]])
    else
      forall i: nat | i < |heat| && i !in picked[..j] ::
        var (mine, chosen) := (Marginal(heat, sim, trade, i, picked[..j]),
                               Marginal(heat, sim, trade, picked[j], picked[..j]));
        mine <= chosen && (i < picked[j] ==> mine < chosen)
  }

  ghost predicate Greedy(heat: seq<real>, sim: Sim, trade: (real, real) -> real, picked: seq<nat>)
    requires Indices(picked, |heat|)
  {
    forall j: nat | j < |picked| :: BestPick(heat, sim, trade, picked, j)
  }

  lemma MaxSimExtend(sim: Sim, i: nat, picked: seq<nat>, x: nat)
    requires picked != []
    ensures var m := MaxSim(sim, i, picked);
            var s := sim(i, x);
            MaxSim(sim, i, picked + [x]) == if s > m then s else m
  {
    assert (picked + [x])[..|picked|] == picked;
  }

  lemma GreedyExtend(heat: seq<real>, sim: Sim, trade: (real, real) -> real, picked: seq<nat>, x: nat)
    requires Indices(picked, |heat|) && x < |heat|
    requires Greedy(heat, sim, trade, picked) && BestPick(heat, sim, trade, picked + [x], |picked|)
    ensures Greedy(heat, sim, trade, picked + [x])
  {
    forall j: nat | j < |picked|
      ensures BestPick(heat, sim, trade, picked + [x], j)
    {
      assert BestPick(heat, sim, trade, picked, j);
      assert (picked + [x])[..j] == picked[..j];
    }
  }

  /** A list of distinct indices shorter than n misses one of them. */
  lemma {:induction false} SomeUnpicked(picked: seq<nat>, n: nat) returns (free: nat)
    requires Distinct(picked) && |picked| < n
    ensures free < n && free !in picked
    decreases n
  {
    if n - 1 !in picked {
      return n - 1;
    }
    var j :| 0 <= j < |picked| && picked[j] == n - 1;
    var rest := picked[..j] + picked[j + 1..];
    free := SomeUnpicked(rest, n - 1);
  }

  /** First index with the greatest score among those not chosen (argmax with the chosen at minus infinity). */
  function FirstBest(score: seq<real>, chosen: seq<bool>): (r: nat)
    requires |score| == |chosen| && exists i :: 0 <= i < |chosen| && !chosen[i]
    ensures r < |score| && !chosen[r]
    ensures forall i :: 0 <= i < |score| && !chosen[i] ==>
              score[i] <= score[r] && (i < r ==> score[i] < score[r])
  {
    var n := |score| - 1;
    if forall i :: 0 <= i < n ==> chosen[i] then n
    else
      var r := FirstBest(score[..n], chosen[..n]);
      if !chosen[n] && score[n] > score[r] then n else r
  }

  /** Fold one more pick into the running maximum, in place. */
  method Raise(sim: Sim, maxSim: array<real>, ghost picked: seq<nat>, next: nat)
    requires picked != []
    requires forall i: nat :: i < maxSim.Length ==> maxSim[i] == MaxSim(sim, i, picked)
    modifies maxSim
    ensures forall i: nat :: i < maxSim.Length ==> maxSim[i] == MaxSim(sim, i, picked + [next])
  {
    ghost var before := maxSim[..];
    for i := 0 to maxSim.Length
      invariant forall j: nat :: j < i ==> maxSim[j] == MaxSim(sim, j, picked + [next])
      invariant forall j: nat :: i <= j < maxSim.Length ==> maxSim[j] == before[j]
    {
      MaxSimExtend(sim, i, picked, next);
      var s := sim(i, next);
      if s > maxSim[i] {
        maxSim[i] := s;
      }
    }
  }

  function Scores(heat: seq<real>, trade: (real, real) -> real, maxSim: seq<real>): (score: seq<real>)
    requires |maxSim| == |heat|
    ensures |score| == |heat|
  {
    seq(|heat|, i requires 0 <= i < |heat| => trade(heat[i], maxSim[i]))
  }

  lemma ScoresPickBest(heat: seq<real>, sim: Sim, trade: (real, real) -> real, picked: seq<nat>, maxSim: seq<real>,
                       chosen: seq<bool>, next: nat)
    requires |heat| == |maxSim| == |chosen| && picked != [] && Indices(picked, |heat|)
    requires forall i: nat :: i < |heat| ==> maxSim[i] == MaxSim(sim, i, picked)
    requires forall i: nat :: i < |heat| ==> (chosen[i] <==> i in picked)
    requires exists i :: 0 <= i < |chosen| && !chosen[i]
    requires next == FirstBest(Scores(heat, trade, maxSim), chosen)
    ensures Indices(picked + [next], |heat|)
    ensures BestPick(heat, sim, trade, picked + [next], |picked|)
  {
    hide MaxSim;
    assert (picked + [next])[..|picked|] == picked;
    var score := Scores(heat, trade, maxSim);
    forall i: nat | i < |heat|
      ensures score[i] == Marginal(heat, sim, trade, i, picked)
    {}
  }

  /** What the loop keeps: the flags mark the picked items, the maxima are current, every pick was best. */
  ghost predicate Tracks(heat: seq<real>, sim: Sim, trade: (real, real) -> real, picked: seq<nat>,
                         maxSim: seq<real>, chosen: seq<bool>) {
    && |heat| == |maxSim| == |chosen| && picked != []
    && Indices(picked, |heat|) && Distinct(picked)
    && (forall i: nat :: i < |heat| ==> (chosen[i] <==> i in picked))
    && (forall i: nat :: i < |heat| ==> maxSim[i] == MaxSim(sim, i, picked))
    && Greedy(heat, sim, trade, picked)
  }

  method PickNext(heat: seq<real>, sim: Sim, trade: (real, real) -> real, ghost picked: seq<nat>,
                  maxSim: seq<real>, chosen: seq<bool>) returns (next: nat)
    requires Tracks(heat, sim, trade, picked, maxSim, chosen) && |picked| < |heat|
    ensures next < |heat| && next !in picked
    ensures Indices(picked + [next], |heat|) && Greedy(heat, sim, trade, picked + [next])
  {
    ghost var free := SomeUnpicked(picked, |heat|);
    assert !chosen[free];
    next := FirstBest(Scores(heat, trade, maxSim), chosen);
    ScoresPickBest(heat, sim, trade, picked, maxSim, chosen, next);
    GreedyExtend(heat, sim, trade, picked, next);
  }

  function Count(k: int, n: nat): (r: nat)
    ensures r <= n && (k >= 0 ==> r <= k) && (r == n || r == k || (r == 0 && k < 0))
  {
    if k <= 0 then 0 else if k < n then k else n
  }

  /** The selection loop, for any similarity and any trade-off of heat against it. */
  method Pick(heat: seq<real>, sim: Sim, trade: (real, real) -> real, k: int) returns (selected: seq<nat>)
    ensures |selected| == Count(k, |heat|) && Indices(selected, |heat|) && Distinct(selected)
    ensures Greedy(heat, sim, trade, selected)
  {
    var n := |heat|;
    var want := if k < n then k else n;
    if want <= 0 {
      return [];
    }
    var none := seq(n, _ => false);
    assert !none[0];
    var first := FirstBest(heat, none);
    assert forall i :: 0 <= i < n ==> !none[i];
    selected := [first];
    var maxSim := new real[n](i requires 0 <= i => sim(i, first));
    var chosen := new bool[n](i => i == first);
    while |selected| < want
      invariant |selected| <= want
      invariant Tracks(heat, sim, trade, selected, maxSim[..], chosen[..])
    {
      var next := PickNext(heat, sim, trade, selected, maxSim[..], chosen[..]);
      Raise(sim, maxSim, selected, next);
      chosen[next] := true;
      selected := selected + [next];
    }
  }

  /** mmr_lambda weighs heat against similarity to the picked set. */
  function TradeOff(lambda: real): (real, real) -> real {
    (heat, sim) => lambda * heat - (1.0 - lambda) * sim
  }

  /** One candidate, of the first heat and similarity, is worth no more than another. */
  ghost predicate NoBetter(lambda: real, heat: real, sim: real, otherHeat: real, otherSim: real) {
    lambda * heat - (1.0 - lambda) * sim <= lambda * otherHeat - (1.0 - lambda) * otherSim
  }

  /** Every pick after the first weighs lambda parts heat against 1 - lambda parts similarity to what was
      picked before it, and no candidate left over then was worth more. */
  ghost predicate WeighsFairly(heat: seq<real>, sim: Sim, lambda: real, picked: seq<nat>)
    requires Indices(picked, |heat|)
  {
    forall i: nat, j: nat :: 0 < j < |picked| && i < |heat| && i !in picked[..j] ==>
      NoBetter(lambda, heat[i], MaxSim(sim, i, picked[..j]), heat[picked[j]], MaxSim(sim, picked[j], picked[..j]))
  }

  lemma TradeOffCompares(lambda: real, heat: real, sim: real, otherHeat: real, otherSim: real)
    ensures TradeOff(lambda)(heat, sim) <= TradeOff(lambda)(otherHeat, otherSim) <==>
            NoBetter(lambda, heat, sim, otherHeat, otherSim)
  {}

  lemma GreedyWeighsFairly(heat: seq<real>, sim: Sim, lambda: real, picked: seq<nat>)
    requires Indices(picked, |heat|) && Greedy(heat, sim, TradeOff(lambda), picked)
    ensures WeighsFairly(heat, sim, lambda, picked)
  {
    hide NoBetter, TradeOff, MaxSim;
    forall i: nat, j: nat | 0 < j < |picked| && i < |heat| && i !in picked[..j]
      ensures NoBetter(lambda, heat[i], MaxSim(sim, i, picked[..j]), heat[picked[j]], MaxSim(sim, picked[j], picked[..j]))
    {
      assert BestPick(heat, sim, TradeOff(lambda), picked, j);
      TradeOffCompares(lambda, heat[i], MaxSim(sim, i, picked[..j]), heat[picked[j]], MaxSim(sim, picked[j], picked[..j]));
    }
  }

  lemma CancelLess(k: real, a: real, b: real)
    requires k > 0.0 && k * b <= k * a
    ensures b <= a
  {
    if a < b {
      Positive(k, b - a);
    }
  }

  lemma LessSimilarIsBetter(lambda: real, heat: real, a: real, b: real)
    requires lambda < 1.0 && NoBetter(lambda, heat, a, heat, b)
    ensures b <= a
  {
    assert lambda * heat - (1.0 - lambda) * a <= lambda * heat - (1.0 - lambda) * b;
    assert (1.0 - lambda) * b <= (1.0 - lambda) * a;
    CancelLess(1.0 - lambda, a, b);
  }

  /** Diversity: as long as similarity counts, a candidate is never passed over for one of equal heat
      that is more similar to what was picked before. */
  lemma LessSimilarFirst(heat: seq<real>, sim: Sim, lambda: real, picked: seq<nat>, i: nat, j: nat)
    requires lambda < 1.0 && Indices(picked, |heat|) && WeighsFairly(heat, sim, lambda, picked)
    requires 0 < j < |picked| && i < |heat| && i !in picked[..j] && heat[i] == heat[picked[j]]
    ensures MaxSim(sim, picked[j], picked[..j]) <= MaxSim(sim, i, picked[..j])
  {
    hide NoBetter;
    LessSimilarIsBetter(lambda, heat[i], MaxSim(sim, i, picked[..j]), MaxSim(sim, picked[j], picked[..j]));
  }

  method Select(norm: Vec -> real, heat: seq<real>, candidates: seq<Vec>, k: int, lambda: real, ghost d: nat)
    returns (selected: seq<nat>)
    requires |heat| == |candidates| && Matrix(candidates, d)
    ensures |selected| == Count(k, |heat|) && Indices(selected, |heat|) && Distinct(selected)
    ensures Greedy(heat, Cosines(NormaliseRows(norm, candidates), d), TradeOff(lambda), selected)
    ensures WeighsFairly(heat, Cosines(NormaliseRows(norm, candidates), d), lambda, selected)
  {
    hide Greedy, WeighsFairly, Indices;
    selected := Pick(heat, Cosines(NormaliseRows(norm, candidates), d), TradeOff(lambda), k);
    GreedyWeighsFairly(heat, Cosines(NormaliseRows(norm, candidates), d), lambda, selected);
  }

  /** With lambda = 1 the picks are a top-k by heat, hottest first. */
  lemma PureHeatIsTopK(heat: seq<real>, sim: Sim, picked: seq<nat>)
    requires Indices(picked, |heat|) && Distinct(picked)
    requires Greedy(heat, sim, TradeOff(1.0), picked)
    ensures forall i, j :: 0 <= i < j < |picked| ==> heat[picked[j]] <= heat[picked[i]]
    ensures forall i: nat, j :: i < |heat| && i !in picked && 0 <= j < |picked| ==> heat[i] <= heat[picked[j]]
  {
    forall i: nat, j: nat | i < |heat| && j < |picked| && i !in picked[..j]
      ensures heat[i] <= heat[picked[j]]
    {
      assert BestPick(heat, sim, TradeOff(1.0), picked, j);
      if j > 0 {
        assert picked[j] !in picked[..j];
        assert Marginal(heat, sim, TradeOff(1.0), i, picked[..j]) == heat[i];
        assert Marginal(heat, sim, TradeOff(1.0), picked[j], picked[..j]) == heat[picked[j]];
      }
    }
    forall i, j | 0 <= i < j < |picked|
      ensures heat[picked[j]] <= heat[picked[i]]
    {
      assert picked[j] !in picked[..i];
    }
  }
}
