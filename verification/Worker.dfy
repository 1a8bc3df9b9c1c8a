/** The GPU worker: a priority scan over model queues, one warm model, and the settling of every
    delivery of a batch. */
module Worker {

  import opened Basics
  import Broker
  import Embedding

  type Task = Broker.Task
  type Body = Broker.Body
  type Delivery = Broker.Delivery

  /** How the outside world behaves during one scan: whether a model load succeeds, whether the
      handlers raise, which query and rerank tasks succeed (by position in the batch), and what the
      chunk fetches (by position among the chunk tasks) and the encoder come to. */
  datatype Oracle = Oracle(loads: bool, raises: bool, succeeds: nat -> bool, fetch: nat -> Embedding.Fetch,
                           encoded: Embedding.Encoded<()>)

  /** Positions to acknowledge and to dead-letter, or an exception that ends the loop. */
  datatype Outcome = Settles(ok: seq<nat>, failed: seq<nat>) | Raises

  // ------------------------------------------------------------------ what a poll pulls

  /** How many messages one poll takes: empty bodies do not count towards the limit. */
  function Pulled(bodies: seq<Body>, max: nat): (n: nat)
    ensures n <= |bodies|
  {
    if bodies == [] || max == 0 then 0
    else 1 + Pulled(bodies[1..], if bodies[0].Empty? then max else max - 1)
  }

  /** The tasks of the valid messages one poll takes. */
  function Batch(bodies: seq<Body>, max: nat): seq<Task> {
    if bodies == [] || max == 0 then []
    else if bodies[0].Empty? then Batch(bodies[1..], max)
    else if bodies[0].Malformed? then Batch(bodies[1..], max - 1)
    else [bodies[0].task] + Batch(bodies[1..], max - 1)
  }

  /** How many bodies are not empty. */
  ghost function Full(bodies: seq<Body>): nat {
    if bodies == [] then 0 else (if bodies[0].Empty? then 0 else 1) + Full(bodies[1..])
  }

  ghost function ValidTasks(bodies: seq<Body>): seq<Task> {
    if bodies == [] then [] else (if bodies[0].Valid? then [bodies[0].task] else []) + ValidTasks(bodies[1..])
  }

  /** A poll takes the shortest front of the queue with as many non-empty bodies as asked for, or all of it if
      there are not so many; its batch is the valid ones among them, in order. */
  lemma {:induction false} PollTakes(bodies: seq<Body>, max: nat)
    ensures var n := Pulled(bodies, max);
            && Full(bodies[..n]) == Smaller(max, Full(bodies))
            && (n < |bodies| ==> Full(bodies[..n]) == max && (n > 0 ==> !bodies[n - 1].Empty?))
            && Batch(bodies, max) == ValidTasks(bodies[..n])
  {
    var n := Pulled(bodies, max);
    if bodies != [] && max > 0 {
      var left := if bodies[0].Empty? then max else max - 1;
      PollTakes(bodies[1..], left);
      var m := Pulled(bodies[1..], left);
      assert bodies[..n][1..] == bodies[1..][..m];
      if m == 0 && |bodies| > 1 {
        NothingTaken(bodies[1..], left);
      }
    }
  }

  lemma NothingTaken(bodies: seq<Body>, max: nat)
    requires bodies != [] && Pulled(bodies, max) == 0
    ensures max == 0
  {}

  function TasksOf(ds: seq<Delivery>): seq<Task> {
    if ds == [] then []
    else TasksOf(ds[..|ds| - 1]) + if ds[|ds| - 1].item.body.Valid? then [ds[|ds| - 1].item.body.task] else []
  }

  function ValidOnes(ds: seq<Delivery>): (r: seq<Delivery>)
    ensures forall i :: 0 <= i < |r| ==> r[i].item.body.Valid?
  {
    if ds == [] then []
    else ValidOnes(ds[..|ds| - 1]) + if ds[|ds| - 1].item.body.Valid? then [ds[|ds| - 1]] else []
  }

  lemma {:induction false} ValidOnesTasks(ds: seq<Delivery>)
    ensures |ValidOnes(ds)| == |TasksOf(ds)|
    ensures forall i :: 0 <= i < |TasksOf(ds)| ==> TasksOf(ds)[i] == ValidOnes(ds)[i].item.body.task
  {
    if ds != [] {
      ValidOnesTasks(ds[..|ds| - 1]);
    }
  }

  // ------------------------------------------------------------- settling a parsed batch

  function Where(tasks: seq<Task>, n: nat, chunk: bool): (r: seq<nat>)
    requires n <= |tasks|
    ensures forall i :: 0 <= i < |r| ==> r[i] < n
    ensures forall i :: 0 <= i < |r| ==> if chunk then tasks[r[i]].ChunkTask? else tasks[r[i]].QueryTask?
    ensures forall i, j :: 0 <= i < j < |r| ==> r[i] < r[j]
    ensures forall p :: 0 <= p < n && (if chunk then tasks[p].ChunkTask? else tasks[p].QueryTask?) ==> p in r
  {
    if n == 0 then []
    else
      var r := Where(tasks, n - 1, chunk);
      if (if chunk then tasks[n - 1].ChunkTask? else tasks[n - 1].QueryTask?) then r + [n - 1] else r
  }

  /** Positions for which the handler answered as given. */
  function Answered(ps: seq<nat>, succeeds: nat -> bool, answer: bool): (r: seq<nat>)
    ensures forall p :: p in r <==> p in ps && succeeds(p) == answer
  {
    if ps == [] then []
    else
      var n := |ps| - 1;
      assert forall p :: p in ps <==> p in ps[..n] || p == ps[n];
      Answered(ps[..n], succeeds, answer) + if succeeds(ps[n]) == answer then [ps[n]] else []
  }

  function Through(ps: seq<nat>, ns: seq<nat>): (r: seq<nat>)
    requires forall i :: 0 <= i < |ns| ==> ns[i] < |ps|
    ensures |r| == |ns| && forall i :: 0 <= i < |r| ==> r[i] == ps[ns[i]]
  {
    seq(|ns|, i requires 0 <= i < |ns| => ps[ns[i]])
  }

  function ChunkTasks(tasks: seq<Task>): (r: seq<Embedding.Task>)
    ensures |r| == |Where(tasks, |tasks|, true)|
  {
    var ps := Where(tasks, |tasks|, true);
    seq(|ps|, i requires 0 <= i < |ps| => tasks[ps[i]].task)
  }

  function Fetches(n: nat, fetch: nat -> Embedding.Fetch): (r: seq<Embedding.Fetch>)
    ensures |r| == n
  {
    seq(n, i requires 0 <= i < n => fetch(i))
  }

  /** What the embed handler hands back for the chunk tasks, as positions in the batch. */
  function ChunkResult(tasks: seq<Task>, o: Oracle): (r: (seq<nat>, seq<nat>)) {
    var chunks := ChunkTasks(tasks);
    if chunks == [] then ([], [])
    else Embedding.Returned(chunks, Fetches(|chunks|, o.fetch), o.encoded)
  }

  lemma ChunkResultInRange(tasks: seq<Task>, o: Oracle)
    ensures var (ok, failed) := ChunkResult(tasks, o);
            && Distinct(ok) && Distinct(failed)
            && (forall n :: n in ok ==> n < |ChunkTasks(tasks)| && n !in failed)
            && (forall n :: n in failed ==> n < |ChunkTasks(tasks)|)
            && (forall i :: 0 <= i < |ok| ==> ok[i] < |ChunkTasks(tasks)|)
            && (forall i :: 0 <= i < |failed| ==> failed[i] < |ChunkTasks(tasks)|)
  {
    hide Embedding.Returned, Where;
    var chunks := ChunkTasks(tasks);
    if chunks != [] {
      Embedding.NeverSettledTwice(chunks, Fetches(|chunks|, o.fetch), o.encoded);
      var (ok, failed) := ChunkResult(tasks, o);
      assert forall i :: 0 <= i < |ok| ==> ok[i] in ok;
      assert forall i :: 0 <= i < |failed| ==> failed[i] in failed;
    }
  }

  function EmbedOutcome(tasks: seq<Task>, o: Oracle): Outcome {
    if o.raises then Raises
    else
      var queries, chunks := Where(tasks, |tasks|, false), Where(tasks, |tasks|, true);
      var (ok, failed) := ChunkResult(tasks, o);
      ChunkResultInRange(tasks, o);
      Settles(Answered(queries, o.succeeds, true) + Through(chunks, ok),
              Answered(queries, o.succeeds, false) + Through(chunks, failed))
  }

  predicate AllRank(tasks: seq<Task>) {
    forall i :: 0 <= i < |tasks| ==> tasks[i].RankTask?
  }

  function Judged(n: nat, succeeds: nat -> bool, answer: bool): seq<nat> {
    Answered(Upto(n), succeeds, answer)
  }

  /** A rerank batch asserts that there is a rerank handler and that every task is of its kind. */
  function RankOutcome(tasks: seq<Task>, hasReranker: bool, o: Oracle): Outcome {
    if o.raises || !hasReranker || !AllRank(tasks) then Raises
    else Settles(Judged(|tasks|, o.succeeds, true), Judged(|tasks|, o.succeeds, false))
  }

  /** The kind of the first task decides for the whole batch. */
  function ProcessOutcome(tasks: seq<Task>, hasReranker: bool, o: Oracle): Outcome
    requires tasks != []
  {
    if tasks[0].RankTask? then RankOutcome(tasks, hasReranker, o) else EmbedOutcome(tasks, o)
  }

  /** The whole treatment of a batch: a failed load dead-letters all of it. */
  function BatchOutcome(tasks: seq<Task>, warm: bool, hasReranker: bool, o: Oracle): Outcome
    requires tasks != []
  {
    if !warm && !o.loads then Settles([], Upto(|tasks|)) else ProcessOutcome(tasks, hasReranker, o)
  }

  // ------------------------------------------------ no position twice, and which are left

  /** No position is settled twice, both ways, or outside the batch. */
  ghost predicate Proper(out: Outcome, n: nat) {
    out.Settles? ==>
      && Distinct(out.ok) && Distinct(out.failed)
      && (forall p :: p in out.ok ==> p < n && p !in out.failed)
      && (forall p :: p in out.failed ==> p < n)
  }

  lemma {:induction false} AnsweredDistinct(ps: seq<nat>, succeeds: nat -> bool, answer: bool)
    requires Distinct(ps)
    ensures Distinct(Answered(ps, succeeds, answer))
  {
    if ps != [] {
      var n := |ps| - 1;
      AnsweredDistinct(ps[..n], succeeds, answer);
      var r := Answered(ps[..n], succeeds, answer);
      assert forall i :: 0 <= i < |r| ==> r[i] in r;
      assert ps[n] !in ps[..n];
    }
  }

  lemma ThroughDistinct(ps: seq<nat>, ns: seq<nat>)
    requires Distinct(ps) && Distinct(ns) && forall i :: 0 <= i < |ns| ==> ns[i] < |ps|
    ensures Distinct(Through(ps, ns))
    ensures forall n :: 0 <= n < |ps| ==> (ps[n] in Through(ps, ns) <==> n in ns)
    ensures forall p :: p in Through(ps, ns) ==> p in ps
  {
    var r := Through(ps, ns);
    forall n | 0 <= n < |ps| && n in ns ensures ps[n] in r {
      var i :| 0 <= i < |ns| && ns[i] == n;
      assert r[i] == ps[n];
    }
    forall i, j | 0 <= i < j < |r| ensures r[i] != r[j] {
      assert ns[i] != ns[j];
      assert ps[ns[i]] != ps[ns[j]];
    }
  }

  lemma DistinctJoin(a: seq<nat>, b: seq<nat>)
    requires Distinct(a) && Distinct(b) && forall p :: p in a ==> p !in b
    ensures Distinct(a + b)
  {
    assert forall i :: 0 <= i < |a| ==> a[i] in a;
    assert forall i :: 0 <= i < |b| ==> b[i] in b;
  }

  lemma AscendingIsDistinct(ps: seq<nat>)
    requires forall i, j :: 0 <= i < j < |ps| ==> ps[i] < ps[j]
    ensures Distinct(ps)
  {
  }

  ghost predicate Apart(a: seq<nat>, b: seq<nat>) {
    forall p :: p in a ==> p !in b
  }

  ghost predicate Below(a: seq<nat>, n: nat) {
    forall p :: p in a ==> p < n
  }

  /** The two halves of an embed batch do not meet: a position is a query or a chunk. */
  lemma HalvesApart(tasks: seq<Task>)
    ensures Apart(Where(tasks, |tasks|, false), Where(tasks, |tasks|, true))
    ensures Below(Where(tasks, |tasks|, false), |tasks|) && Below(Where(tasks, |tasks|, true), |tasks|)
  {
  }

  lemma ThroughApart(ps: seq<nat>, a: seq<nat>, b: seq<nat>)
    requires Distinct(ps) && Distinct(a) && Distinct(b) && Apart(a, b)
    requires forall i :: 0 <= i < |a| ==> a[i] < |ps|
    requires forall i :: 0 <= i < |b| ==> b[i] < |ps|
    ensures Apart(Through(ps, a), Through(ps, b))
  {
    ThroughDistinct(ps, b);
    forall p | p in Through(ps, a) ensures p !in Through(ps, b) {
      var i :| 0 <= i < |a| && Through(ps, a)[i] == p;
      assert a[i] in a;
    }
  }

  lemma JoinProper(a: seq<nat>, b: seq<nat>, c: seq<nat>, d: seq<nat>, n: nat)
    requires Distinct(a) && Distinct(b) && Distinct(c) && Distinct(d)
    requires Below(a, n) && Below(b, n) && Below(c, n) && Below(d, n)
    requires Apart(a, b) && Apart(c, d) && Apart(a, c) && Apart(a, d) && Apart(c, b) && Apart(b, d)
    ensures Proper(Settles(a + b, c + d), n)
  {
    DistinctJoin(a, b);
    DistinctJoin(c, d);
  }

  lemma EmbedIsProper(tasks: seq<Task>, o: Oracle)
    ensures Proper(EmbedOutcome(tasks, o), |tasks|)
  {
    if !o.raises {
      hide Answered, ChunkResult, Where, Through, Proper;
      var queries, chunks := Where(tasks, |tasks|, false), Where(tasks, |tasks|, true);
      var (ok, failed) := ChunkResult(tasks, o);
      ChunkResultInRange(tasks, o);
      AscendingIsDistinct(queries);
      AscendingIsDistinct(chunks);
      AnsweredDistinct(queries, o.succeeds, true);
      AnsweredDistinct(queries, o.succeeds, false);
      ThroughDistinct(chunks, ok);
      ThroughDistinct(chunks, failed);
      ThroughApart(chunks, ok, failed);
      HalvesApart(tasks);
      JoinProper(Answered(queries, o.succeeds, true), Through(chunks, ok),
                 Answered(queries, o.succeeds, false), Through(chunks, failed), |tasks|);
    }
  }

  lemma UptoIsProper(n: nat, succeeds: nat -> bool)
    ensures Proper(Settles([], Upto(n)), n)
    ensures Proper(Settles(Judged(n, succeeds, true), Judged(n, succeeds, false)), n)
  {
    AscendingIsDistinct(Upto(n));
    AnsweredDistinct(Upto(n), succeeds, true);
    AnsweredDistinct(Upto(n), succeeds, false);
  }

  lemma BatchIsProper(tasks: seq<Task>, warm: bool, hasReranker: bool, o: Oracle)
    requires tasks != []
    ensures Proper(BatchOutcome(tasks, warm, hasReranker, o), |tasks|)
  {
    EmbedIsProper(tasks, o);
    UptoIsProper(|tasks|, o.succeeds);
  }

  ghost predicate SettledIn(out: Outcome, p: nat) {
    out.Settles? && (p in out.ok || p in out.failed)
  }

  /** In an embed batch every query is settled; a chunk task is settled when the handler hands it
      back; anything else is left alone. */
  lemma EmbedSettles(tasks: seq<Task>, o: Oracle, p: nat)
    requires !o.raises && p < |tasks|
    ensures tasks[p].QueryTask? ==> SettledIn(EmbedOutcome(tasks, o), p)
    ensures tasks[p].ChunkTask? ==>
              exists n :: 0 <= n < |ChunkTasks(tasks)| && ChunkTasks(tasks)[n] == tasks[p].task
                          && Where(tasks, |tasks|, true)[n] == p
                          && (SettledIn(EmbedOutcome(tasks, o), p) <==> Embedding.SettledBy(ChunkResult(tasks, o), n))
    ensures tasks[p].RankTask? || tasks[p].OtherTask? ==> !SettledIn(EmbedOutcome(tasks, o), p)
  {
    hide ChunkResult;
    var queries, chunks := Where(tasks, |tasks|, false), Where(tasks, |tasks|, true);
    var (ok, failed) := ChunkResult(tasks, o);
    ChunkResultInRange(tasks, o);
    AscendingIsDistinct(chunks);
    ThroughDistinct(chunks, ok);
    ThroughDistinct(chunks, failed);
    if tasks[p].ChunkTask? {
      var n :| 0 <= n < |chunks| && chunks[n] == p;
      HalvesApart(tasks);
      assert ChunkTasks(tasks)[n] == tasks[p].task;
    } else if p in chunks {
      assert false;
    }
  }

  ghost predicate AllSettled(out: Outcome, n: nat) {
    forall p :: 0 <= p < n ==> SettledIn(out, p)
  }

  lemma {:induction false} AllChunks(tasks: seq<Task>, n: nat)
    requires n <= |tasks| && forall p :: 0 <= p < |tasks| ==> tasks[p].ChunkTask?
    ensures Where(tasks, n, true) == Upto(n)
  {
    if n > 0 {
      AllChunks(tasks, n - 1);
      assert Upto(n) == Upto(n - 1) + [n - 1];
    }
  }

  /** When the handler hands back every task of a batch. */
  ghost predicate HandsAllBack(chunks: seq<Embedding.Task>, fetches: seq<Embedding.Fetch>, encoded: Embedding.Encoded<()>)
    requires |chunks| == |fetches|
  {
    if Embedding.Flatten(chunks, fetches) == [] || encoded.Unavailable? then Embedding.TwinsFailTogether(chunks, fetches)
    else encoded.Broken? || forall n :: 0 <= n < |chunks| ==>
           Embedding.FailsFetch(chunks[n], fetches[n]) || Embedding.Contributed(chunks[n], fetches[n]) != []
  }

  /** On a queue of chunk tasks, a batch is settled completely exactly when the load failed or the
      handler hands every task back: the encoder broke, or with rows each task failed its fetch or
      contributed one, or with none embedded no task equals one whose fetch failed without failing too. */
  lemma ChunkBatchSettledIff(tasks: seq<Task>, warm: bool, hasReranker: bool, o: Oracle)
    requires tasks != [] && !o.raises && forall p :: 0 <= p < |tasks| ==> tasks[p].ChunkTask?
    ensures var chunks := ChunkTasks(tasks);
            AllSettled(BatchOutcome(tasks, warm, hasReranker, o), |tasks|)
            <==> (!warm && !o.loads) || HandsAllBack(chunks, Fetches(|chunks|, o.fetch), o.encoded)
  {
    var out := BatchOutcome(tasks, warm, hasReranker, o);
    if !warm && !o.loads {
      forall p | 0 <= p < |tasks| ensures SettledIn(out, p) {
        assert Upto(|tasks|)[p] == p;
      }
    } else {
      hide HandsAllBack;
      ProcessedSettledIff(tasks, o);
    }
  }

  lemma ProcessedSettledIff(tasks: seq<Task>, o: Oracle)
    requires tasks != [] && !o.raises && forall p :: 0 <= p < |tasks| ==> tasks[p].ChunkTask?
    ensures var chunks := ChunkTasks(tasks);
            AllSettled(EmbedOutcome(tasks, o), |tasks|) <==> HandsAllBack(chunks, Fetches(|chunks|, o.fetch), o.encoded)
  {
    hide Embedding.Flatten, Embedding.Contributed, Embedding.FailsFetch, Embedding.Returned, EmbedOutcome,
      Embedding.SettledBy, SettledIn, ChunkTasks, Fetches, Where, Upto, Embedding.TwinsFailTogether;
    var chunks := ChunkTasks(tasks);
    var fetches := Fetches(|chunks|, o.fetch);
    AllChunks(tasks, |tasks|);
    Embedding.WholeBatchSettled(chunks, fetches, o.encoded);
    forall p | 0 <= p < |tasks|
      ensures SettledIn(EmbedOutcome(tasks, o), p)
              <==> Embedding.SettledBy(Embedding.Returned(chunks, fetches, o.encoded), p)
    {
      ChunkSettledAt(tasks, o, p);
    }
  }

  lemma ChunkSettledAt(tasks: seq<Task>, o: Oracle, p: nat)
    requires !o.raises && p < |tasks| && forall p :: 0 <= p < |tasks| ==> tasks[p].ChunkTask?
    ensures var chunks := ChunkTasks(tasks);
            SettledIn(EmbedOutcome(tasks, o), p)
            <==> Embedding.SettledBy(Embedding.Returned(chunks, Fetches(|chunks|, o.fetch), o.encoded), p)
  {
    AllChunks(tasks, |tasks|);
    EmbedSettles(tasks, o, p);
    hide EmbedOutcome, Embedding.Returned, Where, Embedding.SettledBy, SettledIn;
    var chunks := ChunkTasks(tasks);
    var n :| 0 <= n < |chunks| && chunks[n] == tasks[p].task
             && Where(tasks, |tasks|, true)[n] == p
             && (SettledIn(EmbedOutcome(tasks, o), p) <==> Embedding.SettledBy(ChunkResult(tasks, o), n));
    assert n == p;
  }

  /** A query or rerank batch is settled completely exactly when the load failed, or no handler raises and
      there is a rerank handler for rerank tasks. */
  lemma OtherBatchesSettled(tasks: seq<Task>, warm: bool, hasReranker: bool, o: Oracle)
    requires tasks != []
    requires AllRank(tasks) || forall p :: 0 <= p < |tasks| ==> tasks[p].QueryTask?
    ensures AllSettled(BatchOutcome(tasks, warm, hasReranker, o), |tasks|)
            <==> (!warm && !o.loads) || (!o.raises && (hasReranker || !AllRank(tasks)))
  {
    var out := BatchOutcome(tasks, warm, hasReranker, o);
    if out.Raises? {
      assert !SettledIn(out, 0);
    } else {
      forall p | 0 <= p < |tasks| ensures SettledIn(out, p) {
        assert Upto(|tasks|)[p] == p;
        if tasks[p].QueryTask? && !o.raises {
          EmbedSettles(tasks, o, p);
        }
      }
    }
  }

  // --------------------------------------------------- the fate of each delivery of a batch

  /** How many chunk tasks come before position p: the number of p among them. */
  ghost function ChunksBefore(tasks: seq<Task>, p: nat): nat
    requires p <= |tasks|
  {
    if p == 0 then 0 else ChunksBefore(tasks, p - 1) + if tasks[p - 1].ChunkTask? then 1 else 0
  }

  ghost function FetchAt(tasks: seq<Task>, o: Oracle, p: nat): Embedding.Fetch
    requires p < |tasks|
  {
    o.fetch(ChunksBefore(tasks, p))
  }

  /** Some chunk task of the batch has rows to encode. */
  ghost predicate RowsToEncode(tasks: seq<Task>, o: Oracle) {
    exists q :: 0 <= q < |tasks| && tasks[q].ChunkTask? && Embedding.BringsRows(tasks[q].task, FetchAt(tasks, o, q))
  }

  /** A chunk task is done: with rows encoded it brought one; with nothing encoded, no equal task of the
      batch lost its fetch. */
  ghost predicate ChunkDone(tasks: seq<Task>, o: Oracle, p: nat)
    requires p < |tasks| && tasks[p].ChunkTask?
  {
    if RowsToEncode(tasks, o) && o.encoded.Vectors? then Embedding.BringsRows(tasks[p].task, FetchAt(tasks, o, p))
    else if RowsToEncode(tasks, o) && o.encoded.Broken? then false
    else forall q :: 0 <= q < |tasks| && tasks[q] == tasks[p] ==> !Embedding.LosesFetch(tasks[q].task, FetchAt(tasks, o, q))
  }

  ghost predicate ChunkFailed(tasks: seq<Task>, o: Oracle, p: nat)
    requires p < |tasks| && tasks[p].ChunkTask?
  {
    Embedding.LosesFetch(tasks[p].task, FetchAt(tasks, o, p)) || (RowsToEncode(tasks, o) && o.encoded.Broken?)
  }

  /** The delivery at position p is acknowledged: the model is there, and the handler of the task
      succeeded. */
  ghost predicate Acknowledged(tasks: seq<Task>, warm: bool, o: Oracle, p: nat)
    requires p < |tasks|
  {
    && (warm || o.loads)
    && match tasks[p]
       case QueryTask(_) => !tasks[0].RankTask? && o.succeeds(p)
       case RankTask(_) => tasks[0].RankTask? && o.succeeds(p)
       case ChunkTask(_) => !tasks[0].RankTask? && ChunkDone(tasks, o, p)
       case OtherTask => false
  }

  /** The delivery at position p is dead-lettered: the model could not be loaded, or the handler of the
      task failed. */
  ghost predicate DeadLettered(tasks: seq<Task>, warm: bool, o: Oracle, p: nat)
    requires p < |tasks|
  {
    || (!warm && !o.loads)
    || match tasks[p]
       case QueryTask(_) => !tasks[0].RankTask? && !o.succeeds(p)
       case RankTask(_) => tasks[0].RankTask? && !o.succeeds(p)
       case ChunkTask(_) => !tasks[0].RankTask? && ChunkFailed(tasks, o, p)
       case OtherTask => false
  }

  /** The treatment of the batch ends in an exception, and nothing is settled. */
  ghost predicate Throws(tasks: seq<Task>, warm: bool, hasReranker: bool, o: Oracle)
    requires tasks != []
  {
    && (warm || o.loads)
    && (o.raises || (tasks[0].RankTask? && (!hasReranker || exists p :: 0 <= p < |tasks| && !tasks[p].RankTask?)))
  }

  lemma {:induction false} WhereCounts(tasks: seq<Task>, n: nat)
    requires n <= |tasks|
    ensures |Where(tasks, n, true)| == ChunksBefore(tasks, n)
    ensures forall p :: 0 <= p < n && tasks[p].ChunkTask? ==>
              ChunksBefore(tasks, p) < |Where(tasks, n, true)| && Where(tasks, n, true)[ChunksBefore(tasks, p)] == p
  {
    if n > 0 {
      WhereCounts(tasks, n - 1);
    }
  }

  /** The chunk tasks and their fetches, seen from the positions of the batch. */
  lemma ChunkAt(tasks: seq<Task>, o: Oracle, p: nat)
    requires p < |tasks| && tasks[p].ChunkTask?
    ensures var n := ChunksBefore(tasks, p);
            var chunks := ChunkTasks(tasks);
            && n < |chunks| && chunks[n] == tasks[p].task && Where(tasks, |tasks|, true)[n] == p
            && Fetches(|chunks|, o.fetch)[n] == FetchAt(tasks, o, p)
  {
    hide Where;
    WhereCounts(tasks, |tasks|);
  }

  lemma PositionOf(tasks: seq<Task>, n: nat)
    requires n < |Where(tasks, |tasks|, true)|
    ensures var p := Where(tasks, |tasks|, true)[n]; p < |tasks| && tasks[p].ChunkTask? && ChunksBefore(tasks, p) == n
  {
    var ps := Where(tasks, |tasks|, true);
    WhereCounts(tasks, |tasks|);
    hide Where;
    var p := ps[n];
    var m := ChunksBefore(tasks, p);
    assert ps[m] == p;
  }

  lemma RowsToEncodeIff(tasks: seq<Task>, o: Oracle)
    ensures var chunks := ChunkTasks(tasks);
            RowsToEncode(tasks, o) <==> Embedding.SomeRows(chunks, Fetches(|chunks|, o.fetch))
  {
    hide Where, ChunkTasks, Embedding.BringsRows, FetchAt;
    var chunks := ChunkTasks(tasks);
    var fetches := Fetches(|chunks|, o.fetch);
    if q :| 0 <= q < |tasks| && tasks[q].ChunkTask? && Embedding.BringsRows(tasks[q].task, FetchAt(tasks, o, q)) {
      ChunkAt(tasks, o, q);
      assert Embedding.BringsRows(chunks[ChunksBefore(tasks, q)], fetches[ChunksBefore(tasks, q)]);
    }
    if n :| 0 <= n < |chunks| && Embedding.BringsRows(chunks[n], fetches[n]) {
      PositionOf(tasks, n);
      ChunkAt(tasks, o, Where(tasks, |tasks|, true)[n]);
    }
  }

  lemma ChunkDoneIff(tasks: seq<Task>, o: Oracle, p: nat)
    requires p < |tasks| && tasks[p].ChunkTask?
    ensures var chunks := ChunkTasks(tasks);
            var fetches := Fetches(|chunks|, o.fetch);
            var n := ChunksBefore(tasks, p);
            && n < |chunks|
            && (ChunkDone(tasks, o, p) <==> Embedding.IsDone(chunks, fetches, o.encoded, n))
            && (ChunkFailed(tasks, o, p) <==> Embedding.IsFailed(chunks, fetches, o.encoded, n))
  {
    hide Where, ChunkTasks, Embedding.BringsRows, Embedding.LosesFetch, FetchAt, RowsToEncode, Embedding.SomeRows;
    var chunks := ChunkTasks(tasks);
    var fetches := Fetches(|chunks|, o.fetch);
    ChunkAt(tasks, o, p);
    RowsToEncodeIff(tasks, o);
    forall q | 0 <= q < |tasks| && tasks[q] == tasks[p]
      ensures ChunksBefore(tasks, q) < |chunks| && chunks[ChunksBefore(tasks, q)] == tasks[q].task
      ensures fetches[ChunksBefore(tasks, q)] == FetchAt(tasks, o, q)
    {
      ChunkAt(tasks, o, q);
    }
    forall n: nat | n < |chunks|
      ensures var q := Where(tasks, |tasks|, true)[n];
              && q < |tasks| && tasks[q].ChunkTask? && chunks[n] == tasks[q].task && fetches[n] == FetchAt(tasks, o, q)
    {
      PositionOf(tasks, n);
      ChunkAt(tasks, o, Where(tasks, |tasks|, true)[n]);
    }
  }

  lemma EmbedOutcomeIs(tasks: seq<Task>, o: Oracle, p: nat)
    requires !o.raises && p < |tasks| && !tasks[0].RankTask?
    ensures var out := EmbedOutcome(tasks, o);
            && out.Settles?
            && (p in out.ok <==> Acknowledged(tasks, true, o, p)) && (p in out.failed <==> DeadLettered(tasks, true, o, p))
  {
    var queries, chunks := Where(tasks, |tasks|, false), Where(tasks, |tasks|, true);
    var (ok, failed) := ChunkResult(tasks, o);
    ChunkResultInRange(tasks, o);
    AscendingIsDistinct(chunks);
    ThroughDistinct(chunks, ok);
    ThroughDistinct(chunks, failed);
    assert p in queries <==> tasks[p].QueryTask?;
    assert p in chunks <==> tasks[p].ChunkTask?;
    hide Where, ChunkResult, Through, Answered, ChunkDone, ChunkFailed;
    if tasks[p].ChunkTask? {
      ChunkOutcome(tasks, o, p);
    }
  }

  /** What the handler hands back for the chunk task at position p. */
  lemma ChunkOutcome(tasks: seq<Task>, o: Oracle, p: nat)
    requires p < |tasks| && tasks[p].ChunkTask?
    ensures var n := ChunksBefore(tasks, p);
            && n < |Where(tasks, |tasks|, true)| && Where(tasks, |tasks|, true)[n] == p
            && (n in ChunkResult(tasks, o).0 <==> ChunkDone(tasks, o, p))
            && (n in ChunkResult(tasks, o).1 <==> ChunkFailed(tasks, o, p))
  {
    hide Where, ChunkTasks, ChunkDone, ChunkFailed, Embedding.Returned;
    var chunks := ChunkTasks(tasks);
    ChunkAt(tasks, o, p);
    ChunkDoneIff(tasks, o, p);
    Embedding.HandedBackIff(chunks, Fetches(|chunks|, o.fetch), o.encoded, ChunksBefore(tasks, p));
  }

  lemma RankOutcomeIs(tasks: seq<Task>, o: Oracle, p: nat)
    requires !o.raises && p < |tasks| && AllRank(tasks)
    ensures var out := RankOutcome(tasks, true, o);
            && out.Settles?
            && (p in out.ok <==> Acknowledged(tasks, true, o, p)) && (p in out.failed <==> DeadLettered(tasks, true, o, p))
  {
    assert Upto(|tasks|)[p] == p;
    hide Answered;
  }

  /** The whole treatment of a batch, position by position: what it raises on, which deliveries are
      acknowledged and which are dead-lettered. */
  lemma BatchOutcomeIs(tasks: seq<Task>, warm: bool, hasReranker: bool, o: Oracle)
    requires tasks != []
    ensures var out := BatchOutcome(tasks, warm, hasReranker, o);
            && (out.Raises? <==> Throws(tasks, warm, hasReranker, o))
            && (out.Settles? ==> forall p :: 0 <= p < |tasks| ==>
                  && (p in out.ok <==> Acknowledged(tasks, warm, o, p))
                  && (p in out.failed <==> DeadLettered(tasks, warm, o, p)))
  {
    var out := BatchOutcome(tasks, warm, hasReranker, o);
    hide Where, ChunkResult, Through, Answered, ChunkDone, ChunkFailed, Judged;
    if out.Settles? {
      forall p | 0 <= p < |tasks|
        ensures p in out.ok <==> Acknowledged(tasks, warm, o, p)
        ensures p in out.failed <==> DeadLettered(tasks, warm, o, p)
      {
        if !warm && !o.loads {
          assert Upto(|tasks|)[p] == p;
        } else if tasks[0].RankTask? {
          RankOutcomeIs(tasks, o, p);
        } else {
          EmbedOutcomeIs(tasks, o, p);
        }
      }
    }
  }
}
