/** The guard, the worker's batch and the chunk rows together: what happens to a task whose local run
    kills the process. It is delivered again, but not for ever, and from then on it can only be
    acknowledged, with its rows as they were. */
module Redelivery {

  import opened Basics
  import Guard

  type Model = Guard.Path

  /** An embed task; `id` stands for its chunk rows. */
  datatype Task = Task(id: int, model: Model)

  /** How the encoding of the batch in hand went: not tried yet, or with vectors, an exception, or a
      refusal by the guard. */
  datatype Stage = Fresh | Encoded | Raised | Refused

  /** The tasks of a batch not settled yet; `unsaved` are those whose vectors are still to be written. */
  datatype Work = Work(model: Model, tasks: set<Task>, stage: Stage, unsaved: set<Task>)

  /** `embedded` are the tasks whose rows have vectors. `hits` counts, for a task, the kills that struck a
      guarded run it was part of; `kills` and `cleared` count those kills and the removals of the block
      by model. */
  datatype State = State(guard: Guard.State, work: Option<Work>, queued: set<Task>, acked: set<Task>, failed: set<Task>,
                         embedded: set<Task>, hits: map<Task, nat>, kills: map<Model, nat>, cleared: map<Model, nat>)

  datatype Step =
    | Publish(task: Task)
    | Start
    | Take(model: Model, tasks: set<Task>)
    | Check
    | WriteMarker
    | Remember
    | Finish(ok: bool)
    | RemoveMarker
    | Save(part: set<Task>)   // the rows of one chunk table
    | Exit                    // saving or announcing raised: the loop ends and the connection closes
    | Settle(task: Task)
    | Kill
    | RemoveBlock(model: Model)

  const EMPTY := State(Guard.FRESH, None, {}, {}, {}, {}, map[], map[], map[])

  function Of<K>(counts: map<K, nat>, k: K): nat {
    if k in counts then counts[k] else 0
  }

  function Held(s: State): set<Task> {
    if s.work.Some? then s.work.value.tasks else {}
  }

  /** The step of the guard's protocol a step amounts to, if any. */
  function GuardStep(s: State, step: Step): Option<Guard.Step> {
    if step.Start? then Some(Guard.Start)
    else if step.Kill? || step.Exit? then Some(Guard.Kill)
    else if step.RemoveBlock? then Some(Guard.RemoveBlock(step.model))
    else if s.work.None? then None
    else
      var m := s.work.value.model;
      match step
      case Check => Some(Guard.Check(m))
      case WriteMarker => Some(Guard.WriteMarker(m))
      case Remember => Some(Guard.Remember(m))
      case Finish(_) => Some(Guard.Finish(m))
      case RemoveMarker => Some(Guard.RemoveMarker(m))
      case _ => None
  }

  /** The batch has been through the encoder, or was refused, and the local run is left. */
  predicate Handled(s: State) {
    s.work.Some? && !s.work.value.stage.Fresh? && Guard.At(s.guard, s.work.value.model, Guard.Idle)
  }

  /** A local run is entered with a fresh batch only. Vectors are saved once it is left, and messages are
      settled, one by one, once all vectors are saved. */
  predicate Enabled(s: State, step: Step, models: set<Model>) {
    match step
    case Publish(t) => t.model in models && t !in s.queued + Held(s) + s.acked + s.failed
    case Take(m, tasks) =>
      && s.work.None? && tasks != {} && tasks <= s.queued && (forall t :: t in tasks ==> t.model == m)
      && Guard.At(s.guard, m, Guard.Idle)
    case Save(part) => Handled(s) && part != {} && part <= s.work.value.unsaved
    case Exit => Handled(s) && s.work.value.stage.Encoded? && Guard.Enabled(s.guard, Guard.Kill, models)
    case Settle(t) => Handled(s) && s.work.value.unsaved == {} && t in s.work.value.tasks
    case Check =>
      s.work.Some? && s.work.value.stage.Fresh? && Guard.Enabled(s.guard, Guard.Check(s.work.value.model), models)
    case _ => GuardStep(s, step).Some? && Guard.Enabled(s.guard, GuardStep(s, step).value, models)
  }

  /** The process dies: the batch goes back to its queue, and its tasks are hit if its run was under way. */
  function Killed(s: State, models: set<Model>): State {
    var hit := Guard.InRun(s.guard, models);
    s.(work := None, queued := s.queued + Held(s),
       hits := map t | t in s.hits.Keys + Held(s) :: Of(s.hits, t) + if t in Held(s) && t.model in hit then 1 else 0,
       kills := map m | m in s.kills.Keys + hit :: Of(s.kills, m) + if m in hit then 1 else 0)
  }

  /** One message is acknowledged, or dead-lettered when the encoder raised. */
  function Settled(s: State, t: Task): State
    requires s.work.Some?
  {
    var w := s.work.value;
    var left := w.tasks - {t};
    var rest := s.(work := if left == {} then None else Some(w.(tasks := left)));
    if w.stage.Raised? then rest.(failed := s.failed + {t}) else rest.(acked := s.acked + {t})
  }

  function Encoding(w: Work, ok: bool): Work {
    if ok then w.(stage := Encoded, unsaved := w.tasks) else w.(stage := Raised, unsaved := {})
  }

  function Next(s: State, step: Step, models: set<Model>): State
    requires Enabled(s, step, models)
  {
    var g := GuardStep(s, step);
    var guard := if g.None? then s.guard else Guard.Next(s.guard, g.value, models);
    match step
    case Publish(t) => s.(queued := s.queued + {t})
    case Take(m, tasks) => s.(work := Some(Work(m, tasks, Fresh, {})), queued := s.queued - tasks)
    case Check =>
      var w := s.work.value;
      s.(guard := guard, work := Some(if w.model in guard.disk.blocked then w.(stage := Refused) else w))
    case Finish(ok) => s.(guard := guard, work := Some(Encoding(s.work.value, ok)))
    case Save(part) =>
      var w := s.work.value;
      s.(embedded := s.embedded + part, work := Some(w.(unsaved := w.unsaved - part)))
    case Settle(t) => Settled(s, t)
    case Kill => Killed(s, models).(guard := guard)
    case Exit => Killed(s, models).(guard := guard)
    case RemoveBlock(m) => s.(guard := guard, cleared := s.cleared[m := Of(s.cleared, m) + 1])
    case _ => s.(guard := guard)
  }

  ghost predicate Legal(s: State, steps: seq<Step>, models: set<Model>)
    decreases |steps|
  {
    steps == [] || (Enabled(s, steps[0], models) && Legal(Next(s, steps[0], models), steps[1..], models))
  }

  ghost function After(s: State, steps: seq<Step>, models: set<Model>): State
    requires Legal(s, steps, models)
    decreases |steps|
  {
    if steps == [] then s else After(Next(s, steps[0], models), steps[1..], models)
  }

  // ------------------------------------------------------------------- the invariant

  /** Kills of a model's run: one per removed block, and one more while it is blocked or about to be. */
  ghost predicate KillsBounded(s: State, m: Model) {
    Of(s.kills, m) <= Of(s.cleared, m) + if m in s.guard.dead then 1 else 0
  }

  /** The batch in hand is of one known model, and a run of another model is not under way. */
  ghost predicate WorkFits(s: State, models: set<Model>) {
    && (s.work.Some? ==> s.work.value.model in models && forall t :: t in Held(s) ==> t.model == s.work.value.model)
    && (forall m :: m in models && Guard.MarkerPhase(Guard.PhaseOf(s.guard, m)) ==>
          s.work.Some? && s.work.value.model == m)
  }

  /** A batch is in hand only while the process is up, and then every model has a phase. */
  ghost predicate Awake(s: State, models: set<Model>) {
    if s.guard.process.Down? then s.work.None?
    else forall m :: m in models ==> Guard.PhaseOf(s.guard, m) != Guard.Off
  }

  /** Every task published is in one place. */
  ghost predicate Placed(s: State) {
    && s.queued !! Held(s) && s.queued !! s.acked && s.queued !! s.failed
    && Held(s) !! s.acked && Held(s) !! s.failed && s.acked !! s.failed
  }

  /** The batch in hand has saved what it need not save any more; a refused one is of a model once killed,
      and one of a model struck and not unblocked since has not been encoded. */
  ghost predicate StageFits(s: State) {
    s.work.Some? ==>
      var w := s.work.value;
      && w.unsaved <= w.tasks && (w.stage.Encoded? ==> w.tasks - w.unsaved <= s.embedded)
      && (!w.stage.Encoded? ==> w.unsaved == {})
      && (w.stage.Refused? ==> w.model in s.guard.everKilled)
      && (w.model in s.guard.dead ==> w.stage.Fresh? || w.stage.Refused?)
  }

  /** A task is acknowledged without its rows only after a kill of its model. */
  ghost predicate Explained(s: State) {
    forall t :: t in s.acked && t !in s.embedded ==> t.model in s.guard.everKilled
  }

  ghost predicate Inv(s: State, models: set<Model>) {
    && Guard.Inv(s.guard, models) && WorkFits(s, models) && Placed(s)
    && Awake(s, models) && StageFits(s) && Explained(s)
    && (forall m :: KillsBounded(s, m))
    && (forall t :: Of(s.hits, t) <= Of(s.kills, t.model))
  }

  lemma StepKeepsGuard(s: State, step: Step, models: set<Model>)
    requires Guard.Inv(s.guard, models) && Enabled(s, step, models)
    ensures Guard.Inv(Next(s, step, models).guard, models)
  {
    hide Guard.Inv, Guard.Next, Guard.Enabled;
    if GuardStep(s, step).Some? {
      Guard.StepKeepsInv(s.guard, GuardStep(s, step).value, models);
    }
  }

  lemma StepKeepsPlaced(s: State, step: Step, models: set<Model>)
    requires Placed(s) && Enabled(s, step, models)
    ensures Placed(Next(s, step, models))
  {
    hide Guard.Next, Guard.Enabled, Guard.InRun;
  }

  /** A marker appears only by writing it, and none is left in the phases of a dead process. */
  lemma MarkerAppears(g: Guard.State, step: Guard.Step, models: set<Model>, m: Model)
    requires Guard.Enabled(g, step, models)
    ensures Guard.MarkerPhase(Guard.PhaseOf(Guard.Next(g, step, models), m)) ==>
              !step.Kill? && (Guard.MarkerPhase(Guard.PhaseOf(g, m)) || step == Guard.WriteMarker(m))
  {
    hide Guard.InRun, Guard.AfterCheck;
  }

  lemma StepKeepsAwake(s: State, step: Step, models: set<Model>)
    requires Awake(s, models) && Enabled(s, step, models)
    ensures Awake(Next(s, step, models), models)
  {
    hide Guard.InRun, Guard.AfterCheck;
  }

  lemma StepKeepsBatch(s: State, step: Step, models: set<Model>)
    requires WorkFits(s, models) && Guard.Inv(s.guard, models) && Enabled(s, step, models)
    ensures var t := Next(s, step, models);
            t.work.Some? ==> t.work.value.model in models && forall x :: x in Held(t) ==> x.model == t.work.value.model
  {
    hide Guard.Next, Guard.InRun, Guard.ModelOk;
  }

  lemma StepKeepsRun(s: State, step: Step, models: set<Model>, m: Model)
    requires WorkFits(s, models) && Enabled(s, step, models) && m in models
    requires Guard.MarkerPhase(Guard.PhaseOf(Next(s, step, models).guard, m))
    ensures var t := Next(s, step, models); t.work.Some? && t.work.value.model == m
  {
    hide Guard.Next, Guard.InRun;
    if GuardStep(s, step).Some? {
      MarkerAppears(s.guard, GuardStep(s, step).value, models, m);
    }
  }

  lemma EverKilledGrows(g: Guard.State, step: Guard.Step, models: set<Model>)
    requires Guard.Enabled(g, step, models)
    ensures g.everKilled <= Guard.Next(g, step, models).everKilled
  {
    hide Guard.InRun, Guard.AfterCheck;
  }

  lemma KilledStays(s: State, step: Step, models: set<Model>)
    requires Enabled(s, step, models)
    ensures s.guard.everKilled <= Next(s, step, models).guard.everKilled
  {
    hide Guard.Next, Guard.Enabled, Guard.InRun;
    if GuardStep(s, step).Some? {
      EverKilledGrows(s.guard, GuardStep(s, step).value, models);
    }
  }

  /** A run is entered only by a model that is not struck. */
  lemma StruckIsIdle(g: Guard.State, models: set<Model>, m: Model)
    requires Guard.Inv(g, models) && m in models && m in g.dead
    ensures Guard.PhaseOf(g, m) == Guard.Off || Guard.PhaseOf(g, m) == Guard.Idle
    ensures m in Guard.AfterCheck(g.disk, false, m).blocked
  {
    assert Guard.ModelOk(g, m);
  }

  lemma BlockedWasKilled(g: Guard.State, models: set<Model>, m: Model)
    requires Guard.Inv(g, models) && m in models && m in g.disk.blocked
    ensures m in g.everKilled
  {
    assert Guard.ModelOk(g, m);
  }

  lemma CheckKeepsStage(s: State, models: set<Model>)
    requires Guard.Inv(s.guard, models) && WorkFits(s, models) && StageFits(s) && Enabled(s, Check, models)
    ensures StageFits(Next(s, Check, models))
  {
    hide Guard.Inv, Guard.Next, Guard.Enabled;
    var g := Guard.Check(s.work.value.model);
    Guard.StepKeepsInv(s.guard, g, models);
    DeadChanges(s.guard, g, models);
    if s.work.value.model in Guard.Next(s.guard, g, models).disk.blocked {
      BlockedWasKilled(Guard.Next(s.guard, g, models), models, s.work.value.model);
    }
  }

  lemma FinishKeepsStage(s: State, ok: bool, models: set<Model>)
    requires Guard.Inv(s.guard, models) && WorkFits(s, models) && StageFits(s) && Enabled(s, Finish(ok), models)
    ensures StageFits(Next(s, Finish(ok), models))
  {
    hide Guard.Inv, Guard.Next;
    var m := s.work.value.model;
    DeadChanges(s.guard, Guard.Finish(m), models);
    if m in s.guard.dead {
      StruckIsIdle(s.guard, models, m);
    }
  }

  lemma StepKeepsStage(s: State, step: Step, models: set<Model>)
    requires Guard.Inv(s.guard, models) && WorkFits(s, models) && StageFits(s) && Enabled(s, step, models)
    ensures StageFits(Next(s, step, models))
  {
    hide Guard.Inv, Guard.Next, Guard.Enabled, Guard.InRun, WorkFits;
    if step.Check? {
      CheckKeepsStage(s, models);
    } else if step.Finish? {
      FinishKeepsStage(s, step.ok, models);
    } else {
      KilledStays(s, step, models);
      if GuardStep(s, step).Some? {
        DeadChanges(s.guard, GuardStep(s, step).value, models);
      }
    }
  }

  lemma StepKeepsExplained(s: State, step: Step, models: set<Model>)
    requires WorkFits(s, models) && StageFits(s) && Explained(s) && Enabled(s, step, models)
    ensures Explained(Next(s, step, models))
  {
    hide Guard.Next, Guard.Enabled, Guard.InRun, Guard.PhaseOf, Guard.MarkerPhase;
    KilledStays(s, step, models);
  }

  lemma StepKeepsWork(s: State, step: Step, models: set<Model>)
    requires Inv(s, models) && Enabled(s, step, models)
    ensures WorkFits(Next(s, step, models), models)
  {
    hide Next, Enabled, Guard.Inv, Placed, KillsBounded, Of, Guard.PhaseOf, Guard.MarkerPhase, StageFits, Explained;
    StepKeepsBatch(s, step, models);
    forall m | m in models && Guard.MarkerPhase(Guard.PhaseOf(Next(s, step, models).guard, m))
      ensures Next(s, step, models).work.Some? && Next(s, step, models).work.value.model == m
    {
      StepKeepsRun(s, step, models, m);
    }
  }

  /** A run that is struck was not struck before since its block was last removed. */
  lemma StruckIsAlive(s: State, models: set<Model>, m: Model)
    requires Guard.Inv(s.guard, models) && m in Guard.InRun(s.guard, models)
    ensures m !in s.guard.dead
  {
    assert Guard.ModelOk(s.guard, m);
  }

  lemma DeadChanges(g: Guard.State, step: Guard.Step, models: set<Model>)
    requires Guard.Enabled(g, step, models)
    ensures Guard.Next(g, step, models).dead
         == if step.Kill? then g.dead + Guard.InRun(g, models)
            else if step.RemoveBlock? then g.dead - {step.m} else g.dead
  {
    hide Guard.InRun, Guard.AfterCheck;
  }

  lemma StepKeepsKills(s: State, step: Step, models: set<Model>, m: Model)
    requires Guard.Inv(s.guard, models) && KillsBounded(s, m) && Enabled(s, step, models)
    ensures KillsBounded(Next(s, step, models), m)
  {
    hide Guard.Inv, Guard.InRun, Guard.Next, Guard.Enabled;
    if GuardStep(s, step).Some? {
      DeadChanges(s.guard, GuardStep(s, step).value, models);
    }
    if (step.Kill? || step.Exit?) && m in Guard.InRun(s.guard, models) {
      StruckIsAlive(s, models, m);
    }
  }

  lemma StepKeepsHits(s: State, step: Step, models: set<Model>, t: Task)
    requires Enabled(s, step, models) && Of(s.hits, t) <= Of(s.kills, t.model)
    ensures Of(Next(s, step, models).hits, t) <= Of(Next(s, step, models).kills, t.model)
  {
    hide Guard.Next, Guard.Enabled, Guard.InRun;
  }

  lemma StepKeepsInv(s: State, step: Step, models: set<Model>)
    requires Inv(s, models) && Enabled(s, step, models)
    ensures Inv(Next(s, step, models), models)
  {
    hide Next, Enabled, Guard.Inv, WorkFits, Placed, KillsBounded, Of, Awake, StageFits, Explained;
    StepKeepsGuard(s, step, models);
    StepKeepsPlaced(s, step, models);
    StepKeepsWork(s, step, models);
    StepKeepsAwake(s, step, models);
    StepKeepsStage(s, step, models);
    StepKeepsExplained(s, step, models);
    forall m ensures KillsBounded(Next(s, step, models), m) {
      StepKeepsKills(s, step, models, m);
    }
    forall t: Task ensures Of(Next(s, step, models).hits, t) <= Of(Next(s, step, models).kills, t.model) {
      StepKeepsHits(s, step, models, t);
    }
  }

  lemma {:induction false} RunKeepsInv(s: State, steps: seq<Step>, models: set<Model>)
    requires Inv(s, models) && Legal(s, steps, models)
    ensures Inv(After(s, steps, models), models)
    decreases |steps|
  {
    if steps != [] {
      hide Next, Enabled, Inv;
      StepKeepsInv(s, steps[0], models);
      RunKeepsInv(Next(s, steps[0], models), steps[1..], models);
    }
  }

  lemma EmptyIsInv(models: set<Model>)
    ensures Inv(EMPTY, models)
  {
  }

  lemma ReachableIsInv(steps: seq<Step>, models: set<Model>)
    requires Legal(EMPTY, steps, models)
    ensures Inv(After(EMPTY, steps, models), models)
  {
    hide Inv, Next, Enabled;
    EmptyIsInv(models);
    RunKeepsInv(EMPTY, steps, models);
  }

  // ------------------------------------------------------------------- where tasks go

  function Everyone(s: State): set<Task> {
    s.queued + Held(s) + s.acked + s.failed
  }

  lemma OnlyPublishingAdds(s: State, step: Step, models: set<Model>)
    requires Enabled(s, step, models)
    ensures Everyone(Next(s, step, models)) == Everyone(s) + if step.Publish? then {step.task} else {}
  {
    hide Guard.Next, Guard.Enabled, Guard.InRun;
  }

  ghost predicate PublishedIn(steps: seq<Step>, t: Task) {
    exists i :: 0 <= i < |steps| && steps[i] == Publish(t)
  }

  ghost predicate SavedIn(steps: seq<Step>, t: Task) {
    exists i :: 0 <= i < |steps| && steps[i].Save? && t in steps[i].part
  }

  lemma InFirstOrRest(steps: seq<Step>, t: Task)
    requires steps != []
    ensures PublishedIn(steps, t) <==> steps[0] == Publish(t) || PublishedIn(steps[1..], t)
    ensures SavedIn(steps, t) <==> (steps[0].Save? && t in steps[0].part) || SavedIn(steps[1..], t)
  {
    var rest := steps[1..];
    assert forall i :: 0 < i < |steps| ==> steps[i] == rest[i - 1];
    assert forall i :: 0 <= i < |rest| ==> rest[i] == steps[i + 1];
  }

  lemma {:induction false} RunLosesNobody(s: State, steps: seq<Step>, models: set<Model>, t: Task)
    requires Legal(s, steps, models)
    ensures t in Everyone(After(s, steps, models)) <==> t in Everyone(s) || PublishedIn(steps, t)
    decreases |steps|
  {
    hide Next, Enabled, Everyone;
    if steps != [] {
      OnlyPublishingAdds(s, steps[0], models);
      InFirstOrRest(steps, t);
      RunLosesNobody(Next(s, steps[0], models), steps[1..], models, t);
    }
  }

  /** Over every run a task that was published, and no other, is in exactly one place: queued, in hand,
      acknowledged or dead-lettered. */
  lemma NobodyIsLost(steps: seq<Step>, models: set<Model>, t: Task)
    requires Legal(EMPTY, steps, models)
    ensures var s := After(EMPTY, steps, models);
            && Placed(s)
            && (PublishedIn(steps, t) <==> t in s.queued || t in Held(s) || t in s.acked || t in s.failed)
  {
    ReachableIsInv(steps, models);
    hide Legal, After, Guard.Inv, KillsBounded, Of, WorkFits, Awake, StageFits, Explained, Placed;
    RunLosesNobody(EMPTY, steps, models, t);
  }

  /** The rows of a task have vectors if and only if some delivery of it was saved. */
  lemma {:induction false} EmbeddedIffSaved(s: State, steps: seq<Step>, models: set<Model>, t: Task)
    requires Legal(s, steps, models)
    ensures t in After(s, steps, models).embedded <==> t in s.embedded || SavedIn(steps, t)
    decreases |steps|
  {
    hide Guard.Next, Guard.Enabled, Guard.InRun;
    if steps != [] {
      InFirstOrRest(steps, t);
      EmbeddedIffSaved(Next(s, steps[0], models), steps[1..], models, t);
    }
  }

  ghost predicate RaisedIn(steps: seq<Step>) {
    exists i :: 0 <= i < |steps| && steps[i] == Finish(false)
  }

  ghost predicate HasRaised(s: State) {
    s.work.Some? && s.work.value.stage.Raised?
  }

  lemma RaisingStep(s: State, step: Step, models: set<Model>, t: Task)
    requires Enabled(s, step, models)
    ensures t in Next(s, step, models).failed && t !in s.failed ==> HasRaised(s)
    ensures HasRaised(Next(s, step, models)) ==> HasRaised(s) || step == Finish(false)
  {
    hide Guard.Next, Guard.Enabled, Guard.InRun;
  }

  lemma {:induction false} FailedOnlyByRaising(s: State, steps: seq<Step>, models: set<Model>, t: Task)
    requires Legal(s, steps, models) && t in After(s, steps, models).failed && t !in s.failed
    ensures RaisedIn(steps) || HasRaised(s)
    decreases |steps|
  {
    hide Next, Enabled, HasRaised;
    var u, rest := Next(s, steps[0], models), steps[1..];
    RaisingStep(s, steps[0], models, t);
    if t !in u.failed {
      FailedOnlyByRaising(u, rest, models, t);
      if i :| 0 <= i < |rest| && rest[i] == Finish(false) {
        assert steps[i + 1] == Finish(false);
      }
    }
  }

  /** Over every run a task is dead-lettered only if an encoding raised in it: whatever was encoded, saved or
      refused is acknowledged. */
  lemma DeadLetterMeansRaised(steps: seq<Step>, models: set<Model>, t: Task)
    requires Legal(EMPTY, steps, models) && t in After(EMPTY, steps, models).failed
    ensures RaisedIn(steps)
  {
    hide Legal, After;
    FailedOnlyByRaising(EMPTY, steps, models, t);
  }

  // -------------------------------------------------------------- what it amounts to

  /** Over every run: the kills that strike a task's own run, each of which brings the task back, number
      at most one plus one per removal of its model's block. */
  lemma RedeliveryIsBounded(steps: seq<Step>, models: set<Model>, t: Task)
    requires Legal(EMPTY, steps, models)
    ensures var s := After(EMPTY, steps, models); Of(s.hits, t) <= 1 + Of(s.cleared, t.model)
  {
    ReachableIsInv(steps, models);
    hide Legal, After, Guard.Inv, WorkFits, Placed, Awake, StageFits, Explained, Of;
    assert KillsBounded(After(EMPTY, steps, models), t.model);
  }

  /** Over every run: a task acknowledged although its rows have no vectors is one whose model's run was
      killed at some time. */
  lemma RowlessAckMeansKilled(steps: seq<Step>, models: set<Model>, t: Task)
    requires Legal(EMPTY, steps, models)
    requires t in After(EMPTY, steps, models).acked && !SavedIn(steps, t)
    ensures t.model in After(EMPTY, steps, models).guard.everKilled
  {
    ReachableIsInv(steps, models);
    EmbeddedIffSaved(EMPTY, steps, models, t);
  }

  /** The check refuses a fresh batch of a struck model, which cannot get into a run. */
  lemma StruckIsRefused(s: State, models: set<Model>)
    requires Guard.Inv(s.guard, models) && WorkFits(s, models) && Awake(s, models) && StageFits(s)
    requires s.work.Some? && s.work.value.stage.Fresh? && s.work.value.model in s.guard.dead
    ensures Enabled(s, Check, models) && !Enabled(s, WriteMarker, models) && !Enabled(s, Finish(true), models)
    ensures var r := Next(s, Check, models);
            && r.work == Some(s.work.value.(stage := Refused)) && r.embedded == s.embedded
            && Guard.At(r.guard, s.work.value.model, Guard.Idle)
  {
    hide Guard.Inv;
    StruckIsIdle(s.guard, models, s.work.value.model);
  }

  lemma RefusedIsAcknowledged(s: State, models: set<Model>, t: Task)
    requires StageFits(s) && Handled(s) && s.work.value.stage.Refused? && t in Held(s)
    ensures Enabled(s, Settle(t), models)
    ensures t in Next(s, Settle(t), models).acked && Next(s, Settle(t), models).embedded == s.embedded
  {
  }

  /** In every reachable state: a batch of a struck model that was not unblocked since cannot start another
      local run. The check refuses it, and what follows is the acknowledgement of any of its tasks, by
      which no rows change. */
  lemma StruckTaskIsAcknowledged(steps: seq<Step>, models: set<Model>, t: Task)
    requires Legal(EMPTY, steps, models)
    requires var s := After(EMPTY, steps, models);
             s.work.Some? && s.work.value.stage.Fresh? && s.work.value.model in s.guard.dead && t in Held(s)
    ensures var s := After(EMPTY, steps, models);
            && Enabled(s, Check, models) && !Enabled(s, WriteMarker, models) && !Enabled(s, Finish(true), models)
            && var r := Next(s, Check, models);
               && Enabled(r, Settle(t), models)
               && t in Next(r, Settle(t), models).acked && Next(r, Settle(t), models).embedded == s.embedded
  {
    hide Legal, After, KillsBounded, Of, Explained, Placed, Guard.Inv, Guard.Next, Guard.Enabled, Next, Enabled,
      WorkFits, Awake, StageFits;
    var s := After(EMPTY, steps, models);
    ReachableIsInv(steps, models);
    StruckIsRefused(s, models);
    StepKeepsStage(s, Check, models);
    RefusedIsAcknowledged(Next(s, Check, models), models, t);
  }

  predicate KeepsBlock(steps: seq<Step>, m: Model) {
    forall i :: 0 <= i < |steps| ==> steps[i] != RemoveBlock(m)
  }

  /** One step of a state in which a task's model is struck. */
  lemma StruckStep(s: State, step: Step, models: set<Model>, t: Task)
    requires Inv(s, models) && Enabled(s, step, models) && t.model in s.guard.dead && step != RemoveBlock(t.model)
    ensures var u := Next(s, step, models);
            && t.model in u.guard.dead && (t in u.embedded <==> t in s.embedded)
            && (t in u.failed <==> t in s.failed) && Of(u.hits, t) == Of(s.hits, t)
  {
    hide Guard.Inv, Guard.Next, Guard.Enabled, Guard.InRun, KillsBounded, Explained, Placed, Awake;
    if GuardStep(s, step).Some? {
      DeadChanges(s.guard, GuardStep(s, step).value, models);
    }
    if t.model in Guard.InRun(s.guard, models) {
      StruckIsAlive(s, models, t.model);
    }
  }

  /** However the run goes on from any reachable state, until the block is removed by hand a struck task is
      not hit again, not dead-lettered and not written. */
  lemma {:induction false} StruckStaysAsItWas(s: State, steps: seq<Step>, models: set<Model>, t: Task)
    requires Inv(s, models) && Legal(s, steps, models) && t.model in s.guard.dead && KeepsBlock(steps, t.model)
    ensures var u := After(s, steps, models);
            && t.model in u.guard.dead && (t in u.embedded <==> t in s.embedded)
            && (t in u.failed <==> t in s.failed) && Of(u.hits, t) == Of(s.hits, t)
    decreases |steps|
  {
    hide Inv, Next, Enabled, Of;
    if steps != [] {
      StruckStep(s, steps[0], models, t);
      StepKeepsInv(s, steps[0], models);
      StruckStaysAsItWas(Next(s, steps[0], models), steps[1..], models, t);
    }
  }

  /** So from a strike on its rows have vectors if and only if a delivery before was saved, and it is still on
      its way or acknowledged. */
  lemma StruckRowsIff(before: seq<Step>, more: seq<Step>, models: set<Model>, t: Task)
    requires Legal(EMPTY, before, models) && Legal(After(EMPTY, before, models), more, models)
    requires t.model in After(EMPTY, before, models).guard.dead && KeepsBlock(more, t.model)
    ensures var u := After(After(EMPTY, before, models), more, models);
            && (t in u.embedded <==> SavedIn(before, t))
            && (PublishedIn(before, t) && t !in After(EMPTY, before, models).failed ==>
                  t in u.queued || t in Held(u) || t in u.acked)
  {
    hide Inv, Next, Enabled, Legal, After, SavedIn, PublishedIn, Of;
    var s := After(EMPTY, before, models);
    ReachableIsInv(before, models);
    StruckStaysAsItWas(s, more, models, t);
    EmbeddedIffSaved(EMPTY, before, models, t);
    RunLosesNobody(EMPTY, before, models, t);
    RunLosesNobody(s, more, models, t);
  }
}
