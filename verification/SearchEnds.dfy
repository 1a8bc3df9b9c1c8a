/** When a search job that has ended stays as it is: exactly when nothing that could disturb it is on
    its way, which without redelivery means once its completion has been announced. */
module SearchEnds {

  import opened Basics
  import opened Search
  import opened SearchRuns

  predicate Terminal(job: Job) {
    job.status == Complete || job.status == Failed
  }

  /** An announcement can only fail a job; any other message of a job can take it anywhere. */
  predicate Disturbs(job: Job, msg: Message) {
    msg.Announce? ==> job.status != Failed
  }

  /** Nothing on its way concerns the job, except announcements of a job that has failed. */
  ghost predicate Undisturbed(s: State, id: Id)
    requires id in s.jobs
  {
    forall i :: 0 <= i < |s.pending| && s.pending[i].id == id ==> !Disturbs(s.jobs[id], s.pending[i])
  }

  /** The part of a job a client sees. */
  predicate SameOutcome(job: Job, now: Job) {
    now.status == job.status && now.results == job.results
  }

  // --------------------------------------------------------------- undisturbed means final

  lemma HandleKeepsOthers(jobs: Jobs, msg: Message, env: Env, id: Id)
    requires id in jobs && (msg.id == id ==> !Disturbs(jobs[id], msg))
    ensures var (now, sent) := Handle(jobs, msg, env);
            && id in now && now[id] == jobs[id]
            && forall i :: 0 <= i < |sent| ==> sent[i].id != id
  {
    hide Hydrated, FinalResults, RerankResults, Aligned;
  }

  lemma StepKeepsUndisturbed(s: State, step: Step, id: Id)
    requires Enabled(s, step) && id in s.jobs && Undisturbed(s, id)
    ensures var t := Next(s, step); id in t.jobs && t.jobs[id] == s.jobs[id] && Undisturbed(t, id)
  {
    hide Handle, Without;
    var t := Next(s, step);
    if !step.Submit? {
      WithoutIsPart(s.pending, step.n);
    }
    if step.Deliver? {
      var msg := s.pending[step.n];
      HandleKeepsOthers(s.jobs, msg, step.env, id);
      var kept := if step.again then s.pending else Without(s.pending, step.n);
      forall i | 0 <= i < |t.pending| && t.pending[i].id == id ensures !Disturbs(t.jobs[id], t.pending[i]) {
        if i < |kept| {
          assert t.pending[i] in s.pending;
        }
      }
    }
  }

  lemma {:induction false} UndisturbedStays(s: State, steps: seq<Step>, id: Id)
    requires Legal(s, steps) && id in s.jobs && Undisturbed(s, id)
    ensures id in After(s, steps).jobs && After(s, steps).jobs[id] == s.jobs[id]
    decreases |steps|
  {
    if steps != [] {
      StepKeepsUndisturbed(s, steps[0], id);
      hide Undisturbed, Next, Enabled;
      UndisturbedStays(Next(s, steps[0]), steps[1..], id);
    }
  }

  // -------------------------------------------------------- disturbed means it can change

  /** Everything works and the search finds nothing. */
  const WORKING := Env(true, true, Some([]), Some({}), NoBackend, true)
  /** Hydration and publishing fail. */
  const BROKEN := Env(true, true, Some([]), None, NoBackend, false)

  /** The answers that push a message of an ended job on, or the job out of its status. */
  function Push(job: Job, msg: Message): Env {
    if (msg.Rank? || msg.Finalize? || msg.Announce?) && job.status == Complete then BROKEN else WORKING
  }

  /** How many deliveries a message is away from its job. */
  function Distance(msg: Message): nat {
    match msg
    case Created(_) => 4
    case EmbedQuery(_) => 3
    case QueryEmbedded(_) => 2
    case RunSearch(_) => 1
    case Retrieved(_, _, _) => 2
    case Rank(_, _) => 1
    case Finalize(_, _) => 1
    case Announce(_) => 1
  }

  lemma PushMoves(s: State, n: nat)
    requires Inv(s) && n < |s.pending|
    requires var job := s.jobs[s.pending[n].id]; Terminal(job) && Disturbs(job, s.pending[n])
    ensures var msg := s.pending[n];
            var t := Next(s, Deliver(n, Push(s.jobs[msg.id], msg), false));
            && Enabled(s, Deliver(n, Push(s.jobs[msg.id], msg), false)) && msg.id in t.jobs
            && if Distance(msg) == 1 then t.jobs[msg.id].status != s.jobs[msg.id].status
               else
                 && t.jobs[msg.id].status == s.jobs[msg.id].status
                 && t.pending != [] && var next := t.pending[|t.pending| - 1];
                 next.id == msg.id && Distance(next) < Distance(msg) && !next.Announce?
  {
    hide FinalResults, RerankResults, Aligned;
    var msg := s.pending[n];
    assert Fits(s.jobs, msg);
    if CarriesCandidates(msg) {
      NothingPresent(msg.candidates);
    }
  }

  lemma {:induction false} NothingPresent(candidates: seq<Scored>)
    ensures Hydrated(candidates, {}) == []
  {
    if candidates != [] {
      NothingPresent(candidates[1..]);
    }
  }

  /** A continuation in which the job leaves its status. */
  lemma {:induction false} CanBeDisturbed(s: State, n: nat) returns (steps: seq<Step>)
    requires Inv(s) && n < |s.pending|
    requires var job := s.jobs[s.pending[n].id]; Terminal(job) && Disturbs(job, s.pending[n])
    ensures Legal(s, steps) && s.pending[n].id in After(s, steps).jobs
    ensures After(s, steps).jobs[s.pending[n].id].status != s.jobs[s.pending[n].id].status
    decreases Distance(s.pending[n])
  {
    var msg := s.pending[n];
    var step := Deliver(n, Push(s.jobs[msg.id], msg), false);
    PushMoves(s, n);
    StepKeepsInv(s, step);
    var t := Next(s, step);
    hide Next, Enabled, Inv;
    if Distance(msg) == 1 {
      steps := [step];
      assert Legal(t, steps[1..]) && After(t, steps[1..]) == t;
    } else {
      var rest := CanBeDisturbed(t, |t.pending| - 1);
      steps := [step] + rest;
      assert steps[1..] == rest;
    }
  }

  /** An ended job keeps its outcome in every continuation, redelivery included, if and only if
      nothing that disturbs it is on its way. */
  lemma EndedStaysIff(s: State, id: Id)
    requires Inv(s) && id in s.jobs && Terminal(s.jobs[id])
    ensures (forall steps :: Legal(s, steps) ==>
               id in After(s, steps).jobs && SameOutcome(s.jobs[id], After(s, steps).jobs[id]))
            <==> Undisturbed(s, id)
  {
    if Undisturbed(s, id) {
      forall steps | Legal(s, steps)
        ensures id in After(s, steps).jobs && SameOutcome(s.jobs[id], After(s, steps).jobs[id])
      {
        UndisturbedStays(s, steps, id);
      }
    } else {
      var n :| 0 <= n < |s.pending| && s.pending[n].id == id && Disturbs(s.jobs[id], s.pending[n]);
      var steps := CanBeDisturbed(s, n);
      assert Legal(s, steps);
    }
  }

  // ---------------------------------------------------------------- without redelivery

  ghost predicate NoneAgain(steps: seq<Step>) {
    forall i :: 0 <= i < |steps| && steps[i].Deliver? ==> !steps[i].again
  }

  function Count(pending: seq<Message>, id: Id): nat {
    if pending == [] then 0 else (if pending[0].id == id then 1 else 0) + Count(pending[1..], id)
  }

  lemma {:induction false} CountAppend(a: seq<Message>, b: seq<Message>, id: Id)
    ensures Count(a + b, id) == Count(a, id) + Count(b, id)
  {
    if a == [] {
      assert a + b == b;
    } else {
      assert (a + b)[1..] == a[1..] + b;
      CountAppend(a[1..], b, id);
    }
  }

  lemma CountWithout(pending: seq<Message>, n: nat, id: Id)
    requires n < |pending|
    ensures Count(Without(pending, n), id) == Count(pending, id) - if pending[n].id == id then 1 else 0
  {
    assert pending == pending[..n] + ([pending[n]] + pending[n + 1..]);
    assert ([pending[n]] + pending[n + 1..])[1..] == pending[n + 1..];
    CountAppend(pending[..n], [pending[n]] + pending[n + 1..], id);
    CountAppend(pending[..n], pending[n + 1..], id);
  }

  lemma CountOne(msg: Message, id: Id)
    ensures Count([msg], id) == if msg.id == id then 1 else 0
  {
    assert Count([msg][1..], id) == 0;
  }

  lemma {:induction false} PendingCounts(pending: seq<Message>, n: nat)
    requires n < |pending|
    ensures Count(pending, pending[n].id) >= 1
  {
    if n > 0 {
      PendingCounts(pending[1..], n - 1);
    }
  }

  /** At most one message per job is on its way: none for a job that failed, and for a completed one
      only its announcement. */
  ghost predicate OneEach(s: State) {
    && (forall id :: Count(s.pending, id) <= if id in s.jobs then 1 else 0)
    && (forall i :: 0 <= i < |s.pending| ==> Allowed(s.jobs, s.pending[i]))
  }

  predicate Allowed(jobs: Jobs, msg: Message) {
    msg.id in jobs && jobs[msg.id].status != Failed && (jobs[msg.id].status == Complete <==> msg.Announce?)
  }

  lemma HandleSendsOne(jobs: Jobs, msg: Message, env: Env, id: Id)
    requires Allowed(jobs, msg)
    ensures var (now, sent) := Handle(jobs, msg, env);
            && (id != msg.id ==> (id in now <==> id in jobs) && (id in jobs ==> now[id] == jobs[id]))
            && Count(sent, id) <= (if id == msg.id then 1 else 0)
            && forall i :: 0 <= i < |sent| ==> sent[i].id == msg.id && Allowed(now, sent[i])
  {
    hide Hydrated, FinalResults, RerankResults, Aligned;
    var (now, sent) := Handle(jobs, msg, env);
    assert |sent| <= 1;
    if sent != [] {
      CountOne(sent[0], id);
      assert sent == [sent[0]];
    }
  }

  lemma {:induction false} CountZero(pending: seq<Message>, i: nat, id: Id)
    requires i < |pending| && Count(pending, id) == 0
    ensures pending[i].id != id
  {
    if i > 0 {
      CountZero(pending[1..], i - 1, id);
    }
  }

  lemma DeliverKeepsOne(s: State, n: nat, env: Env)
    requires OneEach(s) && Enabled(s, Deliver(n, env, false))
    ensures OneEach(Next(s, Deliver(n, env, false)))
  {
    hide Count, Handle, Allowed, Without;
    var t := Next(s, Deliver(n, env, false));
    var msg := s.pending[n];
    var kept := Without(s.pending, n);
    var (now, sent) := Handle(s.jobs, msg, env);
    PendingCounts(s.pending, n);
    forall id ensures Count(t.pending, id) <= if id in now then 1 else 0 {
      HandleSendsOne(s.jobs, msg, env, id);
      HandleAddsNoJobs(s.jobs, msg, env);
      CountWithout(s.pending, n, id);
      CountAppend(kept, sent, id);
    }
    forall i | 0 <= i < |t.pending| ensures Allowed(now, t.pending[i]) {
      HandleSendsOne(s.jobs, msg, env, if i < |kept| then kept[i].id else msg.id);
      if i < |kept| {
        WithoutIsPart(s.pending, n);
        CountWithout(s.pending, n, msg.id);
        CountZero(kept, i, msg.id);
        AllowedHasJob(s.jobs, kept[i]);
        SameJobAllowed(s.jobs, now, kept[i]);
      }
    }
  }

  lemma AllowedHasJob(jobs: Jobs, msg: Message)
    requires Allowed(jobs, msg)
    ensures msg.id in jobs
  {
  }

  lemma SameJobAllowed(jobs: Jobs, now: Jobs, msg: Message)
    requires Allowed(jobs, msg) && msg.id in now && now[msg.id] == jobs[msg.id]
    ensures Allowed(now, msg)
  {
  }

  lemma StepKeepsOne(s: State, step: Step)
    requires OneEach(s) && Enabled(s, step) && (step.Deliver? ==> !step.again)
    ensures OneEach(Next(s, step))
  {
    var t := Next(s, step);
    match step
    case Deliver(n, env, _) => DeliverKeepsOne(s, n, env);
    case Vanish(n) =>
      hide Count, Without;
      WithoutIsPart(s.pending, n);
      forall id ensures Count(t.pending, id) <= if id in t.jobs then 1 else 0 {
        CountWithout(s.pending, n, id);
      }
    case Submit(id, _, _) =>
      hide Count;
      forall other ensures Count(t.pending, other) <= if other in t.jobs then 1 else 0 {
        CountAppend(s.pending, [Created(id)], other);
        CountOne(Created(id), other);
      }
  }

  lemma {:induction false} OneEachAlways(s: State, steps: seq<Step>)
    requires OneEach(s) && Legal(s, steps) && NoneAgain(steps)
    ensures OneEach(After(s, steps))
    decreases |steps|
  {
    if steps != [] {
      StepKeepsOne(s, steps[0]);
      hide OneEach, Next, Enabled;
      OneEachAlways(Next(s, steps[0]), steps[1..]);
    }
  }

  /** Without redelivery a failed job stays failed, and a completed job stays complete in every
      continuation if and only if its announcement is not still to come. */
  lemma EndedJobsStay(steps: seq<Step>, id: Id)
    requires Legal(EMPTY, steps) && NoneAgain(steps)
    requires id in After(EMPTY, steps).jobs && Terminal(After(EMPTY, steps).jobs[id])
    ensures var s := After(EMPTY, steps);
            (forall more :: Legal(s, more) ==> id in After(s, more).jobs && SameOutcome(s.jobs[id], After(s, more).jobs[id]))
            <==> s.jobs[id].status == Failed || Announce(id) !in s.pending
  {
    RunKeepsInv(EMPTY, steps);
    OneEachAlways(EMPTY, steps);
    var s := After(EMPTY, steps);
    EndedStaysIff(s, id);
    OnlyAnnouncement(s, id);
  }

  lemma OnlyAnnouncement(s: State, id: Id)
    requires OneEach(s) && id in s.jobs && Terminal(s.jobs[id])
    ensures Undisturbed(s, id) <==> s.jobs[id].status == Failed || Announce(id) !in s.pending
  {
    hide Count;
    if Announce(id) in s.pending {
      var i :| 0 <= i < |s.pending| && s.pending[i] == Announce(id);
      assert Allowed(s.jobs, s.pending[i]);
    }
    forall i | 0 <= i < |s.pending| && s.pending[i].id == id ensures s.pending[i] == Announce(id) {
      assert Allowed(s.jobs, s.pending[i]);
    }
  }

  // ------------------------------------------------------------------- two runs

  lemma {:induction false} RunOn(s: State, a: seq<Step>, b: seq<Step>)
    requires Legal(s, a) && Legal(After(s, a), b)
    ensures Legal(s, a + b) && After(s, a + b) == After(After(s, a), b)
    decreases |a|
  {
    if a == [] {
      assert a + b == b;
    } else {
      hide Next, Enabled;
      assert (a + b)[1..] == a[1..] + b && (a + b)[0] == a[0];
      RunOn(Next(s, a[0]), a[1..], b);
    }
  }

  lemma OneStep(s: State, step: Step)
    requires Enabled(s, step)
    ensures Legal(s, [step]) && After(s, [step]) == Next(s, step)
  {
    var t := Next(s, step);
    assert [step][1..] == [];
    assert Legal(t, []) && After(t, []) == t;
  }

  predicate Stands(s: State, id: Id, status: Status) {
    id in s.jobs && s.jobs[id].status == status
  }

  const HIT := Scored("a", 1.0)
  const FOUND := Env(true, true, Some([HIT]), Some({"a"}), Answer([Pair(0, 0.5)]), true)

  /** From nothing to a search that has handed its one candidate to the reranker. */
  const TO_RANK: seq<Step> := [Submit("j", 1, true), Deliver(0, FOUND, false), Deliver(0, FOUND, false),
                               Deliver(0, FOUND, false), Deliver(0, FOUND, false), Deliver(0, FOUND, false)]

  const AT_RANK := State(map["j" := Job(1, true, Searching, true, None, [[HIT]])], [Rank("j", [HIT])])

  lemma ReachesRank()
    ensures Legal(EMPTY, TO_RANK) && After(EMPTY, TO_RANK) == AT_RANK
  {
    var job := Job(1, true, Embedding, false, None, []);
    var ready := job.(embedded := true);
    var s1 := State(map["j" := job], [Created("j")]);
    var s2 := State(map["j" := job], [EmbedQuery("j")]);
    var s3 := State(map["j" := ready], [QueryEmbedded("j")]);
    var s4 := State(map["j" := ready], [RunSearch("j")]);
    var s5 := State(map["j" := Job(1, true, Searching, true, None, [[HIT]])], [Retrieved("j", [HIT], true)]);
    var step := Deliver(0, FOUND, false);
    assert Next(EMPTY, Submit("j", 1, true)) == s1;
    assert Next(s1, step) == s2;
    assert Next(s2, step) == s3;
    assert Next(s3, step) == s4;
    assert ready.retrieved + [[HIT]] == [[HIT]];
    assert Next(s4, step) == s5;
    assert Next(s5, step) == AT_RANK;
    hide Next;
    assert Legal(AT_RANK, TO_RANK[6..]) && After(AT_RANK, TO_RANK[6..]) == AT_RANK;
    assert Legal(s5, TO_RANK[5..]) && After(s5, TO_RANK[5..]) == AT_RANK;
    assert Legal(s4, TO_RANK[4..]) && After(s4, TO_RANK[4..]) == AT_RANK;
    assert Legal(s3, TO_RANK[3..]) && After(s3, TO_RANK[3..]) == AT_RANK;
    assert Legal(s2, TO_RANK[2..]) && After(s2, TO_RANK[2..]) == AT_RANK;
    assert Legal(s1, TO_RANK[1..]) && After(s1, TO_RANK[1..]) == AT_RANK;
  }

  lemma RanksTheHit()
    ensures RerankResults([HIT], {"a"}, [0.5], 1) == [Scored("a", 0.5)]
    ensures Hydrated([HIT], {"a"}) == [HIT] && Aligned([Pair(0, 0.5)], 1) == Some([0.5])
  {
    assert Hydrated([HIT][1..], {"a"}) == [];
    assert Hydrated([HIT], {"a"}) == [HIT];
    var pool := Rescored([HIT], [0.5]);
    assert pool == [Scored("a", 0.5)];
    assert Ranked(pool[1..]) == [];
    assert Ranked(pool) == Insert(pool[0], []) == pool;
    var data := [Pair(0, 0.5)];
    assert LastFor(data, 1, 0) == 0.5;
    assert Aligned(data, 1).value == [0.5];
  }

  /** The rerank task of that job, with an answer: complete, and about to be announced. */
  function Done(again: bool): State {
    State(map["j" := Job(1, true, Complete, true, Some([Scored("a", 0.5)]), [[HIT]])],
          (if again then [Rank("j", [HIT])] else []) + [Announce("j")])
  }

  lemma RankCompletes(again: bool)
    ensures Enabled(AT_RANK, Deliver(0, FOUND, again)) && Next(AT_RANK, Deliver(0, FOUND, again)) == Done(again)
  {
    RanksTheHit();
    hide RerankResults, Aligned, Hydrated;
  }

  /** One step more. */
  lemma Continue(s: State, steps: seq<Step>, step: Step, t: State)
    requires Legal(s, steps) && After(s, steps) == t && Enabled(t, step)
    ensures Legal(s, steps + [step]) && After(s, steps + [step]) == Next(t, step)
  {
    hide Legal, After, Enabled, Next;
    OneStep(t, step);
    RunOn(s, steps, [step]);
  }

  lemma RunCompletes(again: bool)
    ensures Legal(EMPTY, TO_RANK + [Deliver(0, FOUND, again)])
    ensures After(EMPTY, TO_RANK + [Deliver(0, FOUND, again)]) == Done(again)
  {
    hide *;
    ReachesRank();
    RankCompletes(again);
    Continue(EMPTY, TO_RANK, Deliver(0, FOUND, again), AT_RANK);
  }

  lemma AnnouncementOfDone(again: bool, env: Env)
    requires env.nearest == Some([]) || env.nearest == Some([HIT])
    ensures var n := if again then 1 else 0;
            var t := Next(Done(again), Deliver(n, env, false));
            && Enabled(Done(again), Deliver(n, env, false))
            && Stands(t, "j", if env.publishes then Complete else Failed)
            && t.jobs["j"].results == Some([Scored("a", 0.5)])
            && t.pending == if again then [Rank("j", [HIT])] else []
  {
  }

  /** With no redelivery at all: the completion event cannot be published, and the completed job is
      failed, its results kept. */
  lemma PublishFailureUndoes()
    ensures var steps := TO_RANK + [Deliver(0, FOUND, false)];
            && NoneAgain(steps + [Deliver(0, BROKEN, false)])
            && Legal(EMPTY, steps) && Stands(After(EMPTY, steps), "j", Complete)
            && Legal(EMPTY, steps + [Deliver(0, BROKEN, false)])
            && Stands(After(EMPTY, steps + [Deliver(0, BROKEN, false)]), "j", Failed)
            && After(EMPTY, steps + [Deliver(0, BROKEN, false)]).jobs["j"].results == Some([Scored("a", 0.5)])
  {
    hide Legal, After, Next, Enabled;
    RunCompletes(false);
    AnnouncementOfDone(false, BROKEN);
    Continue(EMPTY, TO_RANK + [Deliver(0, FOUND, false)], Deliver(0, BROKEN, false), Done(false));
  }

  lemma LateRankFails(t: State)
    requires Stands(t, "j", Complete) && t.pending == [Rank("j", [HIT])]
    ensures var late := Deliver(0, FOUND.(scoring := NoBackend), false);
            Enabled(t, late) && Stands(Next(t, late), "j", Failed)
  {
    RanksTheHit();
    hide RerankResults, Aligned, Hydrated;
  }

  /** The job is completed and announced; its rerank task is delivered once more while the backend is
      away, and the job is failed. */
  lemma RedeliveryCanUndo()
    ensures var steps := TO_RANK + [Deliver(0, FOUND, true)] + [Deliver(1, FOUND, false)];
            && Legal(EMPTY, steps) && Stands(After(EMPTY, steps), "j", Complete)
            && Announce("j") !in After(EMPTY, steps).pending
            && Legal(EMPTY, steps + [Deliver(0, FOUND.(scoring := NoBackend), false)])
            && Stands(After(EMPTY, steps + [Deliver(0, FOUND.(scoring := NoBackend), false)]), "j", Failed)
  {
    hide Legal, After, Next, Enabled;
    RunCompletes(true);
    AnnouncementOfDone(true, FOUND);
    Continue(EMPTY, TO_RANK + [Deliver(0, FOUND, true)], Deliver(1, FOUND, false), Done(true));
    var told := Next(Done(true), Deliver(1, FOUND, false));
    LateRankFails(told);
    Continue(EMPTY, TO_RANK + [Deliver(0, FOUND, true)] + [Deliver(1, FOUND, false)],
             Deliver(0, FOUND.(scoring := NoBackend), false), told);
  }
}
