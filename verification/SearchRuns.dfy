/** The search pipeline as a whole: jobs, the messages that carry them from step to step, and what a
    completed job may hold. */
module SearchRuns {

  import opened Basics
  import opened Search

  datatype Status = Embedding | Searching | Reranking | Complete | Failed

  /** `retrieved` records every candidate list the job's searches sent on. */
  datatype Job = Job(k: nat, rerank: bool, status: Status, embedded: bool, results: Option<seq<Scored>>,
                     retrieved: seq<seq<Scored>>)

  type Id = string

  /** `Announce` is a handler that has stored its results and is about to publish the completion
      event; the others are queued messages and logged events. */
  datatype Message =
    | Created(id: Id)
    | EmbedQuery(id: Id)
    | QueryEmbedded(id: Id)
    | RunSearch(id: Id)
    | Retrieved(id: Id, candidates: seq<Scored>, rerank: bool)
    | Rank(id: Id, candidates: seq<Scored>)
    | Finalize(id: Id, candidates: seq<Scored>)
    | Announce(id: Id)

  /** The reranker's answer: index and score pairs in any order. */
  datatype Scoring = Answer(data: seq<Pair>) | NoBackend | ScoringError

  /** What the rest of the system answers while one message is handled. */
  datatype Env = Env(known: bool, encodes: bool, nearest: Option<seq<Scored>>, present: Option<set<string>>,
                     scoring: Scoring, publishes: bool)

  type Jobs = map<Id, Job>

  function Completed(job: Job, results: seq<Scored>): Job {
    job.(status := Complete, results := Some(results))
  }

  /** The scores of n documents; None when scoring raises. */
  function ScoresOf(env: Env, n: nat): Option<seq<real>> {
    if env.scoring.Answer? then Aligned(env.scoring.data, n) else None
  }

  /** A job after its rerank task, up to the completion event. */
  function AfterRank(job: Job, candidates: seq<Scored>, env: Env): Job {
    if env.present.None? then job.(status := Failed)
    else
      var ordered := Hydrated(candidates, env.present.value);
      if ordered == [] then Completed(job, [])
      else
        var scores := ScoresOf(env, |ordered|);
        if scores.None? then job.(status := Failed)
        else Completed(job, RerankResults(candidates, env.present.value, scores.value, job.k))
  }

  function AfterFinalize(job: Job, candidates: seq<Scored>, env: Env): Job {
    if env.present.None? then job.(status := Failed)
    else Completed(job, FinalResults(candidates, env.present.value, job.k))
  }

  /** A completion event that cannot be published fails the job that was just completed; the
      results stay. */
  function AfterAnnounce(job: Job, published: bool): Job {
    if published then job else job.(status := Failed)
  }

  /** The search sends its candidates on only if the event can be published. */
  predicate SearchSends(job: Job, env: Env) {
    job.embedded && env.nearest.Some? && env.publishes
  }

  function AfterSearch(job: Job, env: Env): Job {
    if SearchSends(job, env) then job.(status := Searching, retrieved := job.retrieved + [env.nearest.value])
    else job.(status := Failed)
  }

  /** The rerank handler from start to end. */
  function RankAndAnnounce(job: Job, candidates: seq<Scored>, env: Env): Job {
    var now := AfterRank(job, candidates, env);
    if now.status == Complete then AfterAnnounce(now, env.publishes) else now
  }

  function FinalizeAndAnnounce(job: Job, candidates: seq<Scored>, env: Env): Job {
    var now := AfterFinalize(job, candidates, env);
    if now.status == Complete then AfterAnnounce(now, env.publishes) else now
  }

  class SearchJobRepository {
    var jobs: Jobs

    constructor ()
      ensures jobs == map[]
    {
      jobs := map[];
    }

    /** UPDATE ... WHERE id: nothing for an unknown job, and whatever the status was. */
    method SetStatus(id: Id, status: Status)
      modifies this
      ensures jobs == if id in old(jobs) then old(jobs)[id := old(jobs)[id].(status := status)] else old(jobs)
    {
      if id in jobs {
        jobs := jobs[id := jobs[id].(status := status)];
      }
    }

    method CompleteJob(id: Id, results: seq<Scored>)
      modifies this
      ensures jobs == if id in old(jobs) then old(jobs)[id := Completed(old(jobs)[id], results)] else old(jobs)
    {
      if id in jobs {
        jobs := jobs[id := jobs[id].(status := Complete, results := Some(results))];
      }
    }

    /** Stores the results and publishes the event; false when publishing raised. */
    method CompleteAndPublish(id: Id, results: seq<Scored>, publishes: bool) returns (ok: bool)
      requires id in jobs
      modifies this
      ensures jobs == old(jobs)[id := AfterAnnounce(Completed(old(jobs)[id], results), publishes)]
      ensures ok == publishes
    {
      CompleteJob(id, results);
      if !publishes {
        SetStatus(id, Failed);
      }
      ok := publishes;
    }

    /** RerankHandler.handle: true acknowledges the message. */
    method HandleRank(id: Id, candidates: seq<Scored>, env: Env) returns (ok: bool)
      modifies this
      ensures id in old(jobs) ==> jobs == old(jobs)[id := RankAndAnnounce(old(jobs)[id], candidates, env)]
      ensures id !in old(jobs) ==> jobs == old(jobs)
      ensures ok <==> id !in old(jobs) || jobs[id].status == Complete
                      || (env.present.Some? && Hydrated(candidates, env.present.value) != [] && env.scoring.NoBackend?)
    {
      hide Ranked, Rescored, Hydrated, Take, Aligned;
      if id !in jobs {
        return true;
      }
      SetStatus(id, Reranking);
      if env.present.None? {
        SetStatus(id, Failed);
        return false;
      }
      var ordered := Hydrated(candidates, env.present.value);
      if ordered == [] {
        ok := CompleteAndPublish(id, [], env.publishes);
        return;
      }
      ok := ScoreAndStore(id, candidates, env, ordered);
    }

    /** The scoring half of the handler. */
    method ScoreAndStore(id: Id, candidates: seq<Scored>, env: Env, ordered: seq<Scored>) returns (ok: bool)
      requires id in jobs && env.present.Some? && ordered == Hydrated(candidates, env.present.value) != []
      modifies this
      ensures jobs == old(jobs)[id := RankAndAnnounce(old(jobs)[id], candidates, env)]
      ensures ok <==> jobs[id].status == Complete || env.scoring.NoBackend?
    {
      hide Ranked, Rescored, Hydrated, Take, Aligned;
      match env.scoring
      case NoBackend =>
        SetStatus(id, Failed);
        ok := true;
      case ScoringError =>
        SetStatus(id, Failed);
        ok := false;
      case Answer(data) =>
        var scores := Realign(data, |ordered|);
        if scores.None? {
          SetStatus(id, Failed);
          return false;
        }
        var top := Take(Ranked(Rescored(ordered, scores.value)), jobs[id].k);
        ok := CompleteAndPublish(id, top, env.publishes);
    }

    /** SearchFinalizeHandler.handle: true means the exception was re-raised. */
    method HandleFinalize(id: Id, candidates: seq<Scored>, env: Env) returns (raised: bool)
      modifies this
      ensures id in old(jobs) ==> jobs == old(jobs)[id := FinalizeAndAnnounce(old(jobs)[id], candidates, env)]
      ensures id !in old(jobs) ==> jobs == old(jobs)
      ensures raised <==> id in old(jobs) && (env.present.None? || !env.publishes)
    {
      if id !in jobs {
        return false;
      }
      if env.present.None? {
        SetStatus(id, Failed);
        return true;
      }
      var ok := CompleteAndPublish(id, Hydrated(Take(candidates, jobs[id].k), env.present.value), env.publishes);
      raised := !ok;
    }
  }

  /** Whatever order the server answers in, the job ends up the same. */
  lemma SameAnswerSameJob(job: Job, candidates: seq<Scored>, env: Env, one: seq<Pair>, two: seq<Pair>, f: int -> real)
    requires env.present.Some?
    requires var n := |Hydrated(candidates, env.present.value)|;
             && AnswersFor(one, f, n) && AnswersFor(two, f, n)
             && forall i :: 0 <= i < n ==> (Mentions(one, i) <==> Mentions(two, i))
    ensures AfterRank(job, candidates, env.(scoring := Answer(one))) == AfterRank(job, candidates, env.(scoring := Answer(two)))
  {
    hide Hydrated, RerankResults;
    SameAnswerSameScores(one, two, f, |Hydrated(candidates, env.present.value)|);
  }

  /** A rerank task completes its job exactly when the rows can be read and either none of the candidates is
      left or the reranker answers with indices in range; otherwise the job is failed and keeps what results
      it had. Nothing else about the job changes. */
  lemma RankCompletesIff(job: Job, candidates: seq<Scored>, env: Env)
    ensures var after := AfterRank(job, candidates, env);
            && (after.status == Complete <==>
                  && env.present.Some?
                  && ((forall c :: c in candidates ==> c.chunkId !in env.present.value)
                      || (env.scoring.Answer? && InRange(env.scoring.data, |Hydrated(candidates, env.present.value)|))))
            && (after.status != Complete ==> after == job.(status := Failed))
            && after == job.(status := after.status, results := after.results)
  {
    hide RerankResults;
    if env.present.Some? {
      var ordered := Hydrated(candidates, env.present.value);
      if ordered != [] {
        assert ordered[0] in ordered;
      } else {
        forall c | c in candidates ensures c.chunkId !in env.present.value {
          assert c !in ordered;
        }
      }
    }
  }

  /** A finalize task completes its job exactly when the rows can be read. */
  lemma FinalizeCompletesIff(job: Job, candidates: seq<Scored>, env: Env)
    ensures var after := AfterFinalize(job, candidates, env);
            && (after.status == Complete <==> env.present.Some?)
            && (after.status != Complete ==> after == job.(status := Failed))
            && after == job.(status := after.status, results := after.results)
  {
    hide FinalResults;
  }

  /** A search sends its candidates on exactly when the query is embedded, the database answers and the event
      can be published; otherwise the job is failed. */
  lemma SearchSendsIff(jobs: Jobs, id: Id, env: Env)
    requires id in jobs
    ensures var (after, sent) := Handle(jobs, RunSearch(id), env);
            if jobs[id].embedded && env.nearest.Some? && env.publishes then
              && sent == [Retrieved(id, env.nearest.value, jobs[id].rerank)] && after[id].status == Searching
              && after[id].retrieved == jobs[id].retrieved + [env.nearest.value]
            else sent == [] && after[id].status == Failed && after[id].retrieved == jobs[id].retrieved
  {}

  // ---------------------------------------------------------------------- the pipeline

  /** The jobs and the messages sent on, after one message is handled. */
  function Handle(jobs: Jobs, msg: Message, env: Env): (Jobs, seq<Message>) {
    match msg
    case Created(id) => (jobs, if env.known then [EmbedQuery(id)] else [])
    case EmbedQuery(id) =>
      if !env.encodes then (jobs, [])
      else (if id in jobs then jobs[id := jobs[id].(embedded := true)] else jobs,
            if env.publishes then [QueryEmbedded(id)] else [])
    case QueryEmbedded(id) => (jobs, if env.known then [RunSearch(id)] else [])
    case RunSearch(id) =>
      if id !in jobs then (jobs, [])
      else (jobs[id := AfterSearch(jobs[id], env)],
            if SearchSends(jobs[id], env) then [Retrieved(id, env.nearest.value, jobs[id].rerank)] else [])
    case Retrieved(id, candidates, rerank) =>
      (jobs, if !env.known then [] else if rerank then [Rank(id, candidates)] else [Finalize(id, candidates)])
    case Rank(id, candidates) =>
      if id !in jobs then (jobs, [])
      else
        var job := AfterRank(jobs[id], candidates, env);
        (jobs[id := job], if job.status == Complete then [Announce(id)] else [])
    case Finalize(id, candidates) =>
      if id !in jobs then (jobs, [])
      else
        var job := AfterFinalize(jobs[id], candidates, env);
        (jobs[id := job], if job.status == Complete then [Announce(id)] else [])
    case Announce(id) =>
      (if id in jobs then jobs[id := AfterAnnounce(jobs[id], env.publishes)] else jobs, [])
  }

  datatype State = State(jobs: Jobs, pending: seq<Message>)

  /** `again`: the message is delivered but stays in its queue, to be delivered once more. `Vanish` is the
      death of a handler before it announces. */
  datatype Step =
    | Submit(id: Id, k: nat, rerank: bool)
    | Deliver(n: nat, env: Env, again: bool)
    | Vanish(n: nat)

  const EMPTY := State(map[], [])

  /** The database lists each chunk once; a handler publishes its event once. */
  ghost predicate Enabled(s: State, step: Step) {
    match step
    case Submit(id, _, _) => id !in s.jobs
    case Deliver(n, env, again) =>
      && n < |s.pending| && (env.nearest.Some? ==> DistinctIds(env.nearest.value))
      && (again ==> !s.pending[n].Announce?)
    case Vanish(n) => n < |s.pending| && s.pending[n].Announce?
  }

  function Without(pending: seq<Message>, n: nat): seq<Message>
    requires n < |pending|
  {
    pending[..n] + pending[n + 1..]
  }

  function Next(s: State, step: Step): State
    requires !step.Submit? ==> step.n < |s.pending|
  {
    match step
    case Submit(id, k, rerank) =>
      State(s.jobs[id := Job(k, rerank, Embedding, false, None, [])], s.pending + [Created(id)])
    case Deliver(n, env, again) =>
      var (jobs, sent) := Handle(s.jobs, s.pending[n], env);
      State(jobs, (if again then s.pending else Without(s.pending, n)) + sent)
    case Vanish(n) => s.(pending := Without(s.pending, n))
  }

  ghost predicate Legal(s: State, steps: seq<Step>)
    decreases |steps|
  {
    steps == [] || (Enabled(s, steps[0]) && Legal(Next(s, steps[0]), steps[1..]))
  }

  ghost function After(s: State, steps: seq<Step>): State
    requires Legal(s, steps)
    decreases |steps|
  {
    if steps == [] then s else After(Next(s, steps[0]), steps[1..])
  }

  /** The state in which step i of a run is taken. */
  ghost function Before(s: State, steps: seq<Step>, i: nat): State
    requires Legal(s, steps) && i < |steps|
    decreases |steps|
  {
    if i == 0 then s else Before(Next(s, steps[0]), steps[1..], i - 1)
  }

  // ------------------------------------------------------------------- the invariant

  predicate CarriesCandidates(msg: Message) {
    msg.Retrieved? || msg.Rank? || msg.Finalize?
  }

  /** A message belongs to a job; from the query's embedding on the job has one; a task with
      candidates carries a list of that job and is of the kind the job asked for. */
  ghost predicate Fits(jobs: Jobs, msg: Message) {
    && msg.id in jobs
    && (!msg.Created? && !msg.EmbedQuery? ==> jobs[msg.id].embedded)
    && (msg.Retrieved? ==> msg.rerank == jobs[msg.id].rerank)
    && (msg.Rank? ==> jobs[msg.id].rerank)
    && (msg.Finalize? ==> !jobs[msg.id].rerank)
    && (CarriesCandidates(msg) ==> msg.candidates in jobs[msg.id].retrieved)
  }

  ghost predicate JobFits(job: Job) {
    && (forall i :: 0 <= i < |job.retrieved| ==> DistinctIds(job.retrieved[i]))
    && (job.status == Complete ==> job.results.Some?)
  }

  ghost predicate Inv(s: State) {
    && (forall id :: id in s.jobs ==> JobFits(s.jobs[id]))
    && (forall i :: 0 <= i < |s.pending| ==> Fits(s.jobs, s.pending[i]))
  }

  /** A job keeps what it asked for, its embedding, and every list it was given. */
  ghost predicate Grows(job: Job, now: Job) {
    && now.k == job.k && now.rerank == job.rerank && (job.embedded ==> now.embedded)
    && job.retrieved <= now.retrieved
  }

  lemma FitsLater(jobs: Jobs, now: Jobs, msg: Message)
    requires Fits(jobs, msg) && msg.id in now && Grows(jobs[msg.id], now[msg.id])
    ensures Fits(now, msg)
  {
    if CarriesCandidates(msg) {
      var i :| 0 <= i < |jobs[msg.id].retrieved| && jobs[msg.id].retrieved[i] == msg.candidates;
      assert now[msg.id].retrieved[i] == msg.candidates;
    }
  }

  lemma HandleFits(jobs: Jobs, msg: Message, env: Env, id: Id)
    requires Fits(jobs, msg) && id in jobs && JobFits(jobs[id])
    requires env.nearest.Some? ==> DistinctIds(env.nearest.value)
    ensures var now := Handle(jobs, msg, env).0;
            id in now && JobFits(now[id]) && Grows(jobs[id], now[id])
  {
    hide DistinctIds, RerankResults, FinalResults, Hydrated, Aligned;
  }

  lemma SentFits(jobs: Jobs, msg: Message, env: Env, i: nat)
    requires Fits(jobs, msg) && i < |Handle(jobs, msg, env).1|
    ensures Fits(Handle(jobs, msg, env).0, Handle(jobs, msg, env).1[i])
  {
    hide RerankResults, FinalResults, Hydrated, Aligned;
    if msg.RunSearch? {
      var list := AfterSearch(jobs[msg.id], env).retrieved;
      assert list[|list| - 1] == env.nearest.value;
    }
  }

  lemma HandleAddsNoJobs(jobs: Jobs, msg: Message, env: Env)
    ensures Handle(jobs, msg, env).0.Keys == jobs.Keys
  {
    hide RerankResults, FinalResults, Hydrated, Aligned;
  }

  lemma SubmitFits(s: State, id: Id, k: nat, rerank: bool)
    requires Inv(s) && id !in s.jobs
    ensures Inv(Next(s, Submit(id, k, rerank)))
  {
    hide DistinctIds;
  }

  lemma WithoutIsPart(pending: seq<Message>, n: nat)
    requires n < |pending|
    ensures forall i :: 0 <= i < |Without(pending, n)| ==> Without(pending, n)[i] in pending
  {
  }

  lemma DeliverFits(s: State, n: nat, env: Env, again: bool)
    requires Inv(s) && Enabled(s, Deliver(n, env, again))
    ensures Inv(Next(s, Deliver(n, env, again)))
  {
    hide JobFits, Fits, Grows, Handle, Without;
    var t := Next(s, Deliver(n, env, again));
    var msg := s.pending[n];
    var (jobs, sent) := Handle(s.jobs, msg, env);
    forall id | id in s.jobs ensures id in jobs && JobFits(jobs[id]) && Grows(s.jobs[id], jobs[id]) {
      HandleFits(s.jobs, msg, env, id);
    }
    HandleAddsNoJobs(s.jobs, msg, env);
    WithoutIsPart(s.pending, n);
    var kept := if again then s.pending else Without(s.pending, n);
    forall i | 0 <= i < |t.pending| ensures Fits(jobs, t.pending[i]) {
      if i >= |kept| {
        SentFits(s.jobs, msg, env, i - |kept|);
      } else {
        assert t.pending[i] in s.pending;
        Owned(s.jobs, t.pending[i]);
        FitsLater(s.jobs, jobs, t.pending[i]);
      }
    }
  }

  lemma Owned(jobs: Jobs, msg: Message)
    requires Fits(jobs, msg)
    ensures msg.id in jobs
  {
  }

  lemma StepKeepsInv(s: State, step: Step)
    requires Inv(s) && Enabled(s, step)
    ensures Inv(Next(s, step))
  {
    match step
    case Submit(id, k, rerank) => SubmitFits(s, id, k, rerank);
    case Deliver(n, env, again) => DeliverFits(s, n, env, again);
    case Vanish(n) =>
      hide Fits, JobFits;
      WithoutIsPart(s.pending, n);
  }

  lemma {:induction false} RunKeepsInv(s: State, steps: seq<Step>)
    requires Inv(s) && Legal(s, steps)
    ensures Inv(After(s, steps))
    decreases |steps|
  {
    if steps != [] {
      StepKeepsInv(s, steps[0]);
      RunKeepsInv(Next(s, steps[0]), steps[1..]);
    }
  }

  // ------------------------------------------------------- what a completed job may hold

  /** The candidates that still exist, with the scores the reranker gave them. */
  function PoolOf(candidates: seq<Scored>, env: Env): seq<Scored> {
    if env.present.None? then []
    else
      var ordered := Hydrated(candidates, env.present.value);
      var scores := ScoresOf(env, |ordered|);
      if scores.None? then [] else Rescored(ordered, scores.value)
  }

  /** This step handled the job's own rerank or finalize task, of the kind the job asked for and with
      candidates one of its searches found, and r is what the rows present then and the answer of the
      reranker then give. */
  ghost predicate StoredBy(s: State, step: Step, id: Id, r: seq<Scored>) {
    && step.Deliver? && step.n < |s.pending| && id in s.jobs && step.env.present.Some?
    && var (msg, env, job) := (s.pending[step.n], step.env, s.jobs[id]);
       && msg.id == id && (if job.rerank then msg.Rank? else msg.Finalize?)
       && msg.candidates in job.retrieved
       && if job.rerank then RankedBy(msg.candidates, env, job.k, r)
          else r == FinalResults(msg.candidates, env.present.value, job.k)
  }

  ghost predicate RankedBy(candidates: seq<Scored>, env: Env, k: nat, r: seq<Scored>)
    requires env.present.Some?
  {
    var ordered := Hydrated(candidates, env.present.value);
    && (ordered == [] || ScoresOf(env, |ordered|).Some?)
    && r == Take(Ranked(PoolOf(candidates, env)), k)
  }

  lemma RankStores(job: Job, candidates: seq<Scored>, env: Env)
    requires AfterRank(job, candidates, env).status == Complete && env.present.Some?
    ensures RankedBy(candidates, env, job.k, AfterRank(job, candidates, env).results.value)
  {
    var ordered := Hydrated(candidates, env.present.value);
    if ordered == [] {
      assert PoolOf(candidates, env) == [];
    }
  }

  /** Results of a job are those it had before the step, or were stored by it. */
  lemma StepStores(s: State, step: Step, id: Id)
    requires Inv(s) && Enabled(s, step) && id in Next(s, step).jobs && Next(s, step).jobs[id].results.Some?
    ensures var r := Next(s, step).jobs[id].results;
            (id in s.jobs && s.jobs[id].results == r) || StoredBy(s, step, id, r.value)
  {
    hide RankedBy, Hydrated, FinalResults, RerankResults, DistinctIds;
    if step.Deliver? && id in s.jobs {
      var msg, env := s.pending[step.n], step.env;
      if msg.Rank? && msg.id == id && AfterRank(s.jobs[id], msg.candidates, env).status == Complete {
        RankStores(s.jobs[id], msg.candidates, env);
      }
    }
  }

  lemma {:induction false} ResultsWereStored(s: State, steps: seq<Step>, id: Id)
    requires Inv(s) && Legal(s, steps) && id in After(s, steps).jobs && After(s, steps).jobs[id].results.Some?
    ensures var r := After(s, steps).jobs[id].results;
            || (id in s.jobs && s.jobs[id].results == r)
            || exists i :: 0 <= i < |steps| && StoredBy(Before(s, steps, i), steps[i], id, r.value)
    decreases |steps|
  {
    if steps != [] {
      hide StoredBy, Inv, Next, Enabled;
      var r := After(s, steps).jobs[id].results;
      var t := Next(s, steps[0]);
      StepKeepsInv(s, steps[0]);
      ResultsWereStored(t, steps[1..], id);
      if id in t.jobs && t.jobs[id].results == r {
        StepStores(s, steps[0], id);
        assert Before(s, steps, 0) == s;
      } else {
        var i :| 0 <= i < |steps[1..]| && StoredBy(Before(t, steps[1..], i), steps[1..][i], id, r.value);
        assert Before(s, steps, i + 1) == Before(t, steps[1..], i) && steps[i + 1] == steps[1..][i];
      }
    }
  }

  /** What the stored results are worth. For a job that asked for reranking they are the best k of the
      surviving candidates under the scores the reranker gave; otherwise the surviving ones of the first
      k candidates, in the order and with the scores of the search. */
  ghost predicate Sound(s: State, step: Step, id: Id, r: seq<Scored>)
    requires StoredBy(s, step, id, r)
  {
    var (candidates, env, job) := (s.pending[step.n].candidates, step.env, s.jobs[id]);
    && |r| <= job.k && DistinctIds(r)
    && (forall x :: x in r ==> IdIn(candidates, x.chunkId) && x.chunkId in env.present.value)
    && (job.rerank ==> BestOf(r, PoolOf(candidates, env), job.k))
    && (!job.rerank ==> forall c :: c in r <==> c in Take(candidates, job.k) && c.chunkId in env.present.value)
  }

  lemma StoredIsSound(s: State, step: Step, id: Id, r: seq<Scored>)
    requires Inv(s) && StoredBy(s, step, id, r)
    ensures Sound(s, step, id, r)
  {
    var (candidates, env, job) := (s.pending[step.n].candidates, step.env, s.jobs[id]);
    var i :| 0 <= i < |job.retrieved| && job.retrieved[i] == candidates;
    assert DistinctIds(candidates);
    if job.rerank {
      RankedIsSound(candidates, env, job.k, r);
    } else {
      FinalResultsAreCandidates(candidates, env.present.value, job.k);
      forall x | x in r ensures IdIn(candidates, x.chunkId) {
        assert x in Take(candidates, job.k);
      }
    }
  }

  lemma RankedIsSound(candidates: seq<Scored>, env: Env, k: nat, r: seq<Scored>)
    requires env.present.Some? && DistinctIds(candidates) && RankedBy(candidates, env, k, r)
    ensures |r| <= k && DistinctIds(r) && BestOf(r, PoolOf(candidates, env), k)
    ensures forall x :: x in r ==> IdIn(candidates, x.chunkId) && x.chunkId in env.present.value
  {
    var present := env.present.value;
    var ordered := Hydrated(candidates, present);
    var scores := ScoresOf(env, |ordered|);
    hide Ranked, Hydrated, DistinctIds, IdIn, WithScore;
    RankedIsBest(PoolOf(candidates, env), k);
    RerankResultsAreTopK(candidates, present, if scores.None? then [] else scores.value, k);
  }

  /** Safety over every run, redelivery and failing publishers included: the results of a completed job
      were stored by a delivery of its own rerank task if it asked for reranking, of its own finalize
      task if not, and are what that delivery's rows and scores give. */
  lemma CompletedJobIsSound(steps: seq<Step>, id: Id) returns (i: nat)
    requires Legal(EMPTY, steps) && id in After(EMPTY, steps).jobs && After(EMPTY, steps).jobs[id].status == Complete
    ensures After(EMPTY, steps).jobs[id].results.Some? && i < |steps|
    ensures var r := After(EMPTY, steps).jobs[id].results.value;
            StoredBy(Before(EMPTY, steps, i), steps[i], id, r) && Sound(Before(EMPTY, steps, i), steps[i], id, r)
  {
    hide StoredBy, Sound, Next, Enabled, Legal, After, Before;
    RunKeepsInv(EMPTY, steps);
    ResultsWereStored(EMPTY, steps, id);
    var r := After(EMPTY, steps).jobs[id].results.value;
    i :| 0 <= i < |steps| && StoredBy(Before(EMPTY, steps, i), steps[i], id, r);
    BeforeKeepsInv(EMPTY, steps, i);
    StoredIsSound(Before(EMPTY, steps, i), steps[i], id, r);
  }

  lemma {:induction false} BeforeKeepsInv(s: State, steps: seq<Step>, i: nat)
    requires Inv(s) && Legal(s, steps) && i < |steps|
    ensures Inv(Before(s, steps, i)) && Enabled(Before(s, steps, i), steps[i])
    decreases |steps|
  {
    if i > 0 {
      StepKeepsInv(s, steps[0]);
      BeforeKeepsInv(Next(s, steps[0]), steps[1..], i - 1);
    }
  }

  /** The candidate lists of a job are what its own searches found. */
  ghost predicate FoundBy(s: State, step: Step, id: Id, candidates: seq<Scored>) {
    && step.Deliver? && step.n < |s.pending| && s.pending[step.n] == RunSearch(id) && id in s.jobs
    && step.env.nearest == Some(candidates)
  }

  lemma {:induction false} CandidatesWereFound(s: State, steps: seq<Step>, id: Id, candidates: seq<Scored>)
    requires Legal(s, steps) && id in After(s, steps).jobs && candidates in After(s, steps).jobs[id].retrieved
    ensures || (id in s.jobs && candidates in s.jobs[id].retrieved)
            || exists i :: 0 <= i < |steps| && FoundBy(Before(s, steps, i), steps[i], id, candidates)
    decreases |steps|
  {
    if steps != [] {
      var t := Next(s, steps[0]);
      CandidatesWereFound(t, steps[1..], id, candidates);
      if id in t.jobs && candidates in t.jobs[id].retrieved {
        StepFinds(s, steps[0], id, candidates);
        assert Before(s, steps, 0) == s;
      } else {
        hide FoundBy, Next, Enabled;
        var i :| 0 <= i < |steps[1..]| && FoundBy(Before(t, steps[1..], i), steps[1..][i], id, candidates);
        assert Before(s, steps, i + 1) == Before(t, steps[1..], i) && steps[i + 1] == steps[1..][i];
      }
    }
  }

  lemma StepFinds(s: State, step: Step, id: Id, candidates: seq<Scored>)
    requires Enabled(s, step) && id in Next(s, step).jobs && candidates in Next(s, step).jobs[id].retrieved
    ensures (id in s.jobs && candidates in s.jobs[id].retrieved) || FoundBy(s, step, id, candidates)
  {
    hide Hydrated, FinalResults, RerankResults, DistinctIds, Aligned;
  }
}
