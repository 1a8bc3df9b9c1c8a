/** Search results: re-aligned rerank scores, the stable ranking, and what a handler stores in a job. */
module Search {

  import opened Basics

  /** A chunk and a score: an ANN candidate, or a result. */
  datatype Scored = Scored(chunkId: string, score: real)

  // ------------------------------------------------------------ re-aligning scores

  datatype Pair = Pair(index: int, score: real)

  /** Python list positions: -1 is the last element. */
  function Position(index: int, n: nat): (r: Option<nat>)
    ensures forall i: nat :: r == Some(i) <==> i < n && (index == i || index == i - n)
  {
    if 0 <= index < n then Some(index) else if index < 0 <= n + index then Some(n + index) else None
  }

  /** The score the last pair for a position assigns, or 0. */
  function LastFor(data: seq<Pair>, n: nat, i: nat): real {
    if data == [] then 0.0
    else
      var last := data[|data| - 1];
      if Position(last.index, n) == Some(i) then last.score else LastFor(data[..|data| - 1], n, i)
  }

  predicate InRange(data: seq<Pair>, n: nat) {
    forall j :: 0 <= j < |data| ==> Position(data[j].index, n).Some?
  }

  /** The list of scores for n documents, or None when an index is out of range. */
  function Aligned(data: seq<Pair>, n: nat): (r: Option<seq<real>>)
    ensures r.Some? ==> |r.value| == n && forall i :: 0 <= i < n ==> r.value[i] == LastFor(data, n, i)
  {
    if InRange(data, n) then Some(seq(n, i requires 0 <= i < n => LastFor(data, n, i))) else None
  }

  /** Fills a list by index from pairs in whatever order; an index out of range raises. */
  method Realign(data: seq<Pair>, n: nat) returns (scores: Option<seq<real>>)
    ensures scores == Aligned(data, n)
    ensures scores.Some? ==> |scores.value| == n && forall i :: 0 <= i < n ==> scores.value[i] == LastFor(data, n, i)
  {
    var list := new real[n](_ => 0.0);
    for j := 0 to |data|
      invariant InRange(data[..j], n)
      invariant forall i :: 0 <= i < n ==> list[i] == LastFor(data[..j], n, i)
    {
      var at := Position(data[j].index, n);
      assert data[..j + 1][..j] == data[..j];
      if at.None? {
        return None;
      }
      list[at.value] := data[j].score;
    }
    assert data[..|data|] == data;
    assert list[..] == Aligned(data, n).value;
    scores := Some(list[..]);
  }

  ghost predicate Mentions(data: seq<Pair>, i: int) {
    exists j :: 0 <= j < |data| && data[j].index == i
  }

  lemma MentionsLast(data: seq<Pair>, i: int)
    requires data != []
    ensures Mentions(data, i) <==> Mentions(data[..|data| - 1], i) || data[|data| - 1].index == i
  {
    var front := data[..|data| - 1];
    if Mentions(front, i) {
      var j :| 0 <= j < |front| && front[j].index == i;
      assert data[j].index == i;
    }
    if Mentions(data, i) && data[|data| - 1].index != i {
      var j :| 0 <= j < |data| && data[j].index == i;
      assert front[j].index == i;
    }
  }

  /** In whatever order and however often the server answers, a document it mentions gets its own
      score and one it leaves out gets 0. */
  lemma {:induction false} OrderOfAnswerDoesNotMatter(data: seq<Pair>, f: int -> real, n: nat, i: nat)
    requires i < n
    requires forall j :: 0 <= j < |data| ==> 0 <= data[j].index < n && data[j].score == f(data[j].index)
    ensures InRange(data, n) && LastFor(data, n, i) == if Mentions(data, i) then f(i) else 0.0
  {
    if data != [] {
      OrderOfAnswerDoesNotMatter(data[..|data| - 1], f, n, i);
      MentionsLast(data, i);
    }
  }

  /** Every document is answered for by its own score. */
  ghost predicate AnswersFor(data: seq<Pair>, f: int -> real, n: nat) {
    forall j :: 0 <= j < |data| ==> 0 <= data[j].index < n && data[j].score == f(data[j].index)
  }

  /** Two answers that mention the same documents, in whatever orders, align to the same scores. */
  lemma SameAnswerSameScores(one: seq<Pair>, two: seq<Pair>, f: int -> real, n: nat)
    requires AnswersFor(one, f, n) && AnswersFor(two, f, n)
    requires forall i :: 0 <= i < n ==> (Mentions(one, i) <==> Mentions(two, i))
    ensures Aligned(one, n) == Aligned(two, n) && Aligned(one, n).Some?
    ensures (forall i :: 0 <= i < n ==> Mentions(one, i)) ==>
              forall i :: 0 <= i < n ==> Aligned(one, n).value[i] == f(i)
  {
    hide LastFor;
    forall i: nat | i < n
      ensures LastFor(one, n, i) == LastFor(two, n, i) && (Mentions(one, i) ==> LastFor(one, n, i) == f(i))
    {
      OrderOfAnswerDoesNotMatter(one, f, n, i);
      OrderOfAnswerDoesNotMatter(two, f, n, i);
    }
    InRangeIfAnswers(one, f, n);
    InRangeIfAnswers(two, f, n);
    assert Aligned(one, n).value == Aligned(two, n).value;
  }

  lemma InRangeIfAnswers(data: seq<Pair>, f: int -> real, n: nat)
    requires AnswersFor(data, f, n)
    ensures InRange(data, n)
  {
  }

  // -------------------------------------------------------------- the stable ranking

  predicate Falling(s: seq<Scored>) {
    forall i, j :: 0 <= i < j < |s| ==> s[i].score >= s[j].score
  }

  /** In front of everything that scores no higher. */
  function Insert(x: Scored, s: seq<Scored>): seq<Scored> {
    if s == [] || x.score >= s[0].score then [x] + s else [s[0]] + Insert(x, s[1..])
  }

  /** sorted(..., reverse=True): best first, ties in their original order. */
  function Ranked(s: seq<Scored>): seq<Scored> {
    if s == [] then [] else Insert(s[0], Ranked(s[1..]))
  }

  /** The elements with one score, in order. */
  function WithScore(s: seq<Scored>, v: real): seq<Scored> {
    if s == [] then [] else (if s[0].score == v then [s[0]] else []) + WithScore(s[1..], v)
  }

  lemma {:induction false} InsertKeeps(x: Scored, s: seq<Scored>)
    ensures multiset(Insert(x, s)) == multiset(s) + multiset{x}
  {
    if s != [] {
      assert s == [s[0]] + s[1..];
      InsertKeeps(x, s[1..]);
    }
  }

  lemma {:induction false} InsertFalls(x: Scored, s: seq<Scored>)
    requires Falling(s)
    ensures Falling(Insert(x, s))
  {
    if s != [] && x.score < s[0].score {
      InsertFalls(x, s[1..]);
      var r := Insert(x, s[1..]);
      InsertKeeps(x, s[1..]);
      forall j | 0 <= j < |r| ensures s[0].score >= r[j].score {
        assert r[j] in multiset(r);
        assert r[j] == x || r[j] in s[1..];
      }
    }
  }

  lemma {:induction false} RankedFacts(s: seq<Scored>)
    ensures Falling(Ranked(s)) && multiset(Ranked(s)) == multiset(s) && |Ranked(s)| == |s|
  {
    if s != [] {
      RankedFacts(s[1..]);
      InsertKeeps(s[0], Ranked(s[1..]));
      InsertFalls(s[0], Ranked(s[1..]));
      assert s == [s[0]] + s[1..];
      assert |multiset(Ranked(s))| == |Ranked(s)| && |multiset(s)| == |s|;
    }
  }

  lemma WithScoreCons(x: Scored, s: seq<Scored>, v: real)
    ensures WithScore([x] + s, v) == (if x.score == v then [x] else []) + WithScore(s, v)
  {
    assert ([x] + s)[1..] == s;
  }

  lemma {:induction false} InsertIsStable(x: Scored, s: seq<Scored>, v: real)
    requires Falling(s)
    ensures WithScore(Insert(x, s), v) == (if x.score == v then [x] else []) + WithScore(s, v)
  {
    hide WithScore;
    if s == [] || x.score >= s[0].score {
      WithScoreCons(x, s, v);
    } else {
      var y, rest := s[0], s[1..];
      InsertIsStable(x, rest, v);
      WithScoreCons(y, Insert(x, rest), v);
      WithScoreCons(y, rest, v);
      assert s == [y] + rest;
    }
  }

  /** Ties keep their original order. */
  lemma {:induction false} RankedIsStable(s: seq<Scored>, v: real)
    ensures WithScore(Ranked(s), v) == WithScore(s, v)
  {
    if s != [] {
      RankedIsStable(s[1..], v);
      RankedFacts(s[1..]);
      InsertIsStable(s[0], Ranked(s[1..]), v);
    }
  }

  /** Falling and stable leaves only one ranking. */
  lemma {:induction false} RankingIsUnique(a: seq<Scored>, b: seq<Scored>)
    requires Falling(a) && Falling(b) && forall v :: WithScore(a, v) == WithScore(b, v)
    ensures a == b
  {
    if a == [] {
      OnlyEmpty(b);
    } else if b == [] {
      OnlyEmpty(a);
    } else {
      SameHead(a, b);
      SameHead(b, a);
      HeadIsFirst(a);
      HeadIsFirst(b);
      forall v ensures WithScore(a[1..], v) == WithScore(b[1..], v) {
        assert a == [a[0]] + a[1..] && b == [b[0]] + b[1..];
        WithScoreCons(a[0], a[1..], v);
        WithScoreCons(b[0], b[1..], v);
        Behind(if a[0].score == v then [a[0]] else [], WithScore(a[1..], v), WithScore(b[1..], v));
      }
      RankingIsUnique(a[1..], b[1..]);
    }
  }

  lemma OnlyEmpty(s: seq<Scored>)
    requires forall v :: WithScore(s, v) == []
    ensures s == []
  {
    if s != [] {
      HeadIsFirst(s);
      assert false;
    }
  }

  /** The ranking is the one sequence that falls and keeps ties in order. */
  lemma RankedIff(s: seq<Scored>, pool: seq<Scored>)
    ensures s == Ranked(pool) <==> Falling(s) && SameTies(s, pool)
  {
    hide Ranked, WithScore;
    RankedFacts(pool);
    forall v ensures WithScore(Ranked(pool), v) == WithScore(pool, v) {
      RankedIsStable(pool, v);
    }
    assert SameTies(Ranked(pool), pool);
    if Falling(s) && SameTies(s, pool) {
      RankingIsUnique(s, Ranked(pool));
    }
  }

  ghost predicate SameTies(s: seq<Scored>, pool: seq<Scored>) {
    forall v :: WithScore(s, v) == WithScore(pool, v)
  }

  lemma {:induction false} WithScoreSplit(a: seq<Scored>, b: seq<Scored>, v: real)
    ensures WithScore(a + b, v) == WithScore(a, v) + WithScore(b, v)
  {
    if a == [] {
      assert a + b == b;
    } else {
      assert a + b == [a[0]] + (a[1..] + b) && a == [a[0]] + a[1..];
      WithScoreCons(a[0], a[1..] + b, v);
      WithScoreCons(a[0], a[1..], v);
      WithScoreSplit(a[1..], b, v);
    }
  }

  lemma Behind(h: seq<Scored>, s: seq<Scored>, t: seq<Scored>)
    requires h + s == h + t
    ensures s == t
  {
    assert (h + s)[|h|..] == s && (h + t)[|h|..] == t;
  }

  lemma HeadIsFirst(s: seq<Scored>)
    requires s != []
    ensures WithScore(s, s[0].score) != [] && WithScore(s, s[0].score)[0] == s[0]
  {
  }

  lemma {:induction false} ScoreIsThere(s: seq<Scored>, v: real)
    requires WithScore(s, v) != []
    ensures exists i :: 0 <= i < |s| && s[i].score == v
  {
    if s[0].score != v {
      ScoreIsThere(s[1..], v);
      var i :| 0 <= i < |s[1..]| && s[1..][i].score == v;
      assert s[i + 1].score == v;
    }
  }

  lemma SameHead(a: seq<Scored>, b: seq<Scored>)
    requires Falling(b) && a != [] && b != [] && forall v :: WithScore(a, v) == WithScore(b, v)
    ensures b[0].score >= a[0].score
  {
    HeadIsFirst(a);
    hide WithScore;
    ScoreIsThere(b, a[0].score);
    var i :| 0 <= i < |b| && b[i].score == a[0].score;
  }

  // -------------------------------------------------------------------- the results

  function Take(s: seq<Scored>, k: nat): (r: seq<Scored>)
    ensures r <= s && |r| == Smaller(k, |s|)
  {
    if k < |s| then s[..k] else s
  }

  /** Candidates that still exist, in order. */
  function Hydrated(candidates: seq<Scored>, present: set<string>): (r: seq<Scored>)
    ensures forall c :: c in r <==> c in candidates && c.chunkId in present
  {
    if candidates == [] then []
    else
      assert forall c :: c in candidates <==> c == candidates[0] || c in candidates[1..];
      (if candidates[0].chunkId in present then [candidates[0]] else []) + Hydrated(candidates[1..], present)
  }

  /** zip(ordered, scores): as long as the shorter of the two. */
  function Rescored(ordered: seq<Scored>, scores: seq<real>): (r: seq<Scored>)
    ensures |r| == if |ordered| < |scores| then |ordered| else |scores|
    ensures forall i :: 0 <= i < |r| ==> r[i] == Scored(ordered[i].chunkId, scores[i])
  {
    seq(if |ordered| < |scores| then |ordered| else |scores|,
        i requires 0 <= i < |ordered| && i < |scores| => Scored(ordered[i].chunkId, scores[i]))
  }

  function RerankResults(candidates: seq<Scored>, present: set<string>, scores: seq<real>, k: nat): seq<Scored> {
    Take(Ranked(Rescored(Hydrated(candidates, present), scores)), k)
  }

  /** Without reranking: the first k, in ANN order, minus what no longer exists. */
  function FinalResults(candidates: seq<Scored>, present: set<string>, k: nat): seq<Scored> {
    Hydrated(Take(candidates, k), present)
  }

  ghost predicate DistinctIds(s: seq<Scored>) {
    forall i, j :: 0 <= i < j < |s| ==> s[i].chunkId != s[j].chunkId
  }

  ghost predicate IdIn(s: seq<Scored>, id: string) {
    exists i :: 0 <= i < |s| && s[i].chunkId == id
  }

  lemma {:induction false} HydratedDistinct(candidates: seq<Scored>, present: set<string>)
    requires DistinctIds(candidates)
    ensures DistinctIds(Hydrated(candidates, present))
    ensures |Hydrated(candidates, present)| <= |candidates|
  {
    if candidates != [] {
      HydratedDistinct(candidates[1..], present);
      var r := Hydrated(candidates[1..], present);
      forall j | 0 <= j < |r| ensures candidates[0].chunkId != r[j].chunkId {
        assert r[j] in candidates[1..];
      }
    }
  }

  lemma FirstIsAlone(s: seq<Scored>)
    requires s != [] && DistinctIds(s)
    ensures s[0] !in s[1..] && DistinctIds(s[1..])
  {
    assert forall i :: 0 <= i < |s| - 1 ==> s[1..][i] == s[i + 1];
  }

  lemma {:induction false} OncePerId(s: seq<Scored>, x: Scored)
    requires DistinctIds(s)
    ensures multiset(s)[x] <= 1
  {
    if s != [] {
      OncePerId(s[1..], x);
      assert s == [s[0]] + s[1..];
      FirstIsAlone(s);
    }
  }

  /** A rearrangement of a sequence with distinct ids has distinct ids. */
  lemma RearrangedDistinct(a: seq<Scored>, b: seq<Scored>)
    requires multiset(a) == multiset(b) && DistinctIds(a)
    ensures DistinctIds(b)
  {
    forall i, j | 0 <= i < j < |b| ensures b[i].chunkId != b[j].chunkId {
      assert b[i] in multiset(b) && b[j] in multiset(b);
      assert b[i] in a && b[j] in a;
      if b[i] == b[j] {
        TwiceCounts(b, i, j);
        OncePerId(a, b[i]);
        assert false;
      }
    }
  }

  lemma TwiceCounts(s: seq<Scored>, i: nat, j: nat)
    requires i < j < |s| && s[i] == s[j]
    ensures multiset(s)[s[i]] >= 2
  {
    assert s == s[..i] + [s[i]] + s[i + 1..j] + [s[j]] + s[j + 1..];
  }

  /** What the first k of a ranked pool are: as many as there are up to k, best first, ties in the
      pool's order, none left out scoring higher than one kept; and every falling and stable
      arrangement of the pool starts with them. */
  ghost predicate BestOf(r: seq<Scored>, pool: seq<Scored>, k: nat) {
    && |r| == Smaller(k, |pool|) && Falling(r)
    && (forall x :: x in r ==> x in pool)
    && (forall x, y :: x in r && y in pool && y !in r ==> x.score >= y.score)
    && (forall v :: WithScore(r, v) <= WithScore(pool, v))
    && (forall s :: Falling(s) && SameTies(s, pool) ==> r == Take(s, k))
  }

  lemma TakeKeepsTies(pool: seq<Scored>, k: nat, v: real)
    ensures WithScore(Take(Ranked(pool), k), v) <= WithScore(pool, v)
  {
    hide Ranked, WithScore;
    var all := Ranked(pool);
    var r := Take(all, k);
    RankedIsStable(pool, v);
    assert all == r + all[|r|..];
    WithScoreSplit(r, all[|r|..], v);
  }

  lemma RankedIsBest(pool: seq<Scored>, k: nat)
    ensures BestOf(Take(Ranked(pool), k), pool, k)
  {
    hide Ranked, WithScore;
    var all := Ranked(pool);
    var r := Take(all, k);
    RankedFacts(pool);
    forall x | x in r ensures x in pool {
      assert x in multiset(all);
    }
    forall x, y | x in r && y in pool && y !in r ensures x.score >= y.score {
      assert y in multiset(all);
      KeptBeatsDropped(all, k, x, y);
    }
    forall v ensures WithScore(r, v) <= WithScore(pool, v) {
      TakeKeepsTies(pool, k, v);
    }
    forall s | Falling(s) && SameTies(s, pool) ensures r == Take(s, k) {
      RankedIff(s, pool);
    }
  }

  /** What a reranked job may hold: the best k of the surviving candidates under their rerank scores,
      distinct, all among the candidates. */
  lemma RerankResultsAreTopK(candidates: seq<Scored>, present: set<string>, scores: seq<real>, k: nat)
    requires DistinctIds(candidates)
    ensures var r := RerankResults(candidates, present, scores, k);
            && BestOf(r, Rescored(Hydrated(candidates, present), scores), k)
            && DistinctIds(r)
            && (forall x :: x in r ==> IdIn(candidates, x.chunkId) && x.chunkId in present)
  {
    hide Ranked, IdIn, BestOf;
    var pool := Rescored(Hydrated(candidates, present), scores);
    var all := Ranked(pool);
    var r := RerankResults(candidates, present, scores, k);
    RankedFacts(pool);
    RankedIsBest(pool, k);
    HydratedDistinct(candidates, present);
    RearrangedDistinct(pool, all);
    forall x | x in r ensures IdIn(candidates, x.chunkId) && x.chunkId in present {
      assert x in multiset(all);
      PoolIsCandidates(candidates, present, scores, x);
    }
  }

  lemma PoolIsCandidates(candidates: seq<Scored>, present: set<string>, scores: seq<real>, x: Scored)
    requires x in Rescored(Hydrated(candidates, present), scores)
    ensures IdIn(candidates, x.chunkId) && x.chunkId in present
  {
    var ordered := Hydrated(candidates, present);
    var pool := Rescored(ordered, scores);
    var i :| 0 <= i < |pool| && pool[i] == x;
    assert ordered[i] in candidates;
  }

  lemma KeptBeatsDropped(all: seq<Scored>, k: nat, x: Scored, y: Scored)
    requires Falling(all) && x in Take(all, k) && y in all && y !in Take(all, k)
    ensures x.score >= y.score
  {
    var n := |Take(all, k)|;
    assert forall j :: 0 <= j < n ==> Take(all, k)[j] == all[j];
    var i :| 0 <= i < n && all[i] == x;
    var j :| n <= j < |all| && all[j] == y;
  }

  /** What a job without reranking may hold: at most k of its candidates, distinct, in ANN order and
      with their ANN scores. */
  lemma FinalResultsAreCandidates(candidates: seq<Scored>, present: set<string>, k: nat)
    requires DistinctIds(candidates)
    ensures var r := FinalResults(candidates, present, k);
            && |r| <= k && DistinctIds(r)
            && (forall c :: c in r <==> c in Take(candidates, k) && c.chunkId in present)
            && InOrderOf(r, candidates) && (Falling(candidates) ==> Falling(r))
  {
    var first := Take(candidates, k);
    HydratedDistinct(first, present);
    HydratedInOrder(first, present);
    StillInOrder(Hydrated(first, present), candidates, k);
    hide InOrderOf, Hydrated;
    if Falling(candidates) {
      HydratedFalls(first, present);
    }
  }

  ghost predicate Before(s: seq<Scored>, x: Scored, y: Scored) {
    exists a, b :: 0 <= a < b < |s| && s[a] == x && s[b] == y
  }

  /** What comes earlier in r comes earlier in s. */
  ghost predicate InOrderOf(r: seq<Scored>, s: seq<Scored>) {
    forall i, j :: 0 <= i < j < |r| ==> Before(s, r[i], r[j])
  }

  lemma StillBefore(s: seq<Scored>, k: nat, x: Scored, y: Scored)
    requires Before(Take(s, k), x, y)
    ensures Before(s, x, y)
  {
    var first := Take(s, k);
    var a, b :| 0 <= a < b < |first| && first[a] == x && first[b] == y;
    assert s[a] == x && s[b] == y;
  }

  lemma StillInOrder(r: seq<Scored>, s: seq<Scored>, k: nat)
    requires InOrderOf(r, Take(s, k))
    ensures InOrderOf(r, s)
  {
    hide Before, Take;
    forall i, j | 0 <= i < j < |r| ensures Before(s, r[i], r[j]) {
      StillBefore(s, k, r[i], r[j]);
    }
  }

  lemma {:induction false} HydratedInOrder(candidates: seq<Scored>, present: set<string>)
    ensures InOrderOf(Hydrated(candidates, present), candidates)
  {
    if candidates != [] {
      var rest := candidates[1..];
      HydratedInOrder(rest, present);
      var r, all := Hydrated(rest, present), Hydrated(candidates, present);
      var n := |all| - |r|;
      forall i, j | 0 <= i < j < |all| ensures Before(candidates, all[i], all[j]) {
        assert all[j] == r[j - n];
        if i < n {
          assert r[j - n] in rest;
          var b :| 0 <= b < |rest| && rest[b] == all[j];
          assert candidates[0] == all[i] && candidates[b + 1] == all[j];
        } else {
          assert all[i] == r[i - n];
          var a, b :| 0 <= a < b < |rest| && rest[a] == all[i] && rest[b] == all[j];
          assert candidates[a + 1] == all[i] && candidates[b + 1] == all[j];
        }
      }
    }
  }

  lemma {:induction false} HydratedFalls(candidates: seq<Scored>, present: set<string>)
    requires Falling(candidates)
    ensures Falling(Hydrated(candidates, present))
  {
    if candidates != [] {
      HydratedFalls(candidates[1..], present);
      var r := Hydrated(candidates[1..], present);
      forall j | 0 <= j < |r| ensures candidates[0].score >= r[j].score {
        assert r[j] in candidates[1..];
      }
    }
  }
}
