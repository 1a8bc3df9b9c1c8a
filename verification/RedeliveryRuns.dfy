/** Two short runs of one struck task: acknowledged without vectors, and acknowledged with them. */
module RedeliveryRuns {

  import opened Basics
  import opened Redelivery
  import Guard

  /** All there is to know of a system with one published task; the phase is Off when the process is down. */
  datatype Picture = Picture(phase: Guard.Phase, stage: Option<Stage>, unsaved: bool, running: bool, blocked: bool,
                             embedded: bool, acked: bool, hits: nat)

  const WAITING := Picture(Guard.Off, None, false, false, false, false, false, 0)

  ghost predicate Shows(s: State, t: Task, x: Picture) {
    var m := t.model;
    && Guard.PhaseOf(s.guard, m) == x.phase && (x.phase.Off? <==> s.guard.process.Down?)
    && s.work == (if x.stage.None? then None else Some(Work(m, {t}, x.stage.value, if x.unsaved then {t} else {})))
    && (m in s.guard.disk.running <==> x.running) && (m in s.guard.disk.blocked <==> x.blocked)
    && (t in s.embedded <==> x.embedded) && (t in s.acked <==> x.acked)
    && (t in s.queued <==> x.stage.None? && !x.acked) && Of(s.hits, t) == x.hits
    && (x.acked ==> x.stage.None?)
  }

  /** The picture after a step, if the step can be taken. */
  function Moved(x: Picture, step: Step, t: Task): Option<Picture> {
    match step
    case Start => if x.phase.Off? then Some(x.(phase := Guard.Idle)) else None
    case Take(m, tasks) =>
      if m == t.model && tasks == {t} && x.phase.Idle? && x.stage.None? && !x.acked then
        Some(x.(stage := Some(Fresh), unsaved := false))
      else None
    case Check =>
      if !x.phase.Idle? || x.stage != Some(Fresh) then None
      else if x.running || x.blocked then Some(x.(running := false, blocked := true, stage := Some(Refused)))
      else Some(x.(phase := Guard.Checked))
    case WriteMarker =>
      if x.phase.Checked? && x.stage.Some? then Some(x.(phase := Guard.Marked, running := true)) else None
    case Remember => if x.phase.Marked? && x.stage.Some? then Some(x.(phase := Guard.Active)) else None
    case Finish(ok) =>
      if ok && x.phase.Active? && x.stage.Some? then
        Some(x.(phase := Guard.Leaving, stage := Some(Encoded), unsaved := true))
      else None
    case RemoveMarker =>
      if x.phase.Leaving? && x.stage.Some? then Some(x.(phase := Guard.Idle, running := false)) else None
    case Save(part) =>
      if part == {t} && x.phase.Idle? && x.stage == Some(Encoded) && x.unsaved then
        Some(x.(embedded := true, unsaved := false))
      else None
    case Settle(u) =>
      if u == t && x.phase.Idle? && (x.stage == Some(Encoded) || x.stage == Some(Refused)) && !x.unsaved then
        Some(x.(stage := None, acked := true))
      else None
    case Kill =>
      if x.phase.Off? then None
      else
        var hit := x.stage.Some? && Guard.MarkerPhase(x.phase);
        Some(x.(phase := Guard.Off, stage := None, unsaved := false, hits := x.hits + if hit then 1 else 0))
    case _ => None
  }

  lemma ProcessMoves(s: State, t: Task, x: Picture, step: Step)
    requires Shows(s, t, x) && Moved(x, step, t).Some? && (step.Start? || step.Kill? || step.Take?)
    ensures Enabled(s, step, {t.model}) && Shows(Next(s, step, {t.model}), t, Moved(x, step, t).value)
  {
  }

  lemma GuardMoves(s: State, t: Task, x: Picture, step: Step)
    requires Shows(s, t, x) && Moved(x, step, t).Some?
    requires step.Check? || step.WriteMarker? || step.Remember? || step.Finish? || step.RemoveMarker?
    ensures Enabled(s, step, {t.model}) && Shows(Next(s, step, {t.model}), t, Moved(x, step, t).value)
  {
    hide Guard.InRun, Of;
  }

  lemma RowMoves(s: State, t: Task, x: Picture, step: Step)
    requires Shows(s, t, x) && Moved(x, step, t).Some? && (step.Save? || step.Settle?)
    ensures Enabled(s, step, {t.model}) && Shows(Next(s, step, {t.model}), t, Moved(x, step, t).value)
  {
    hide Guard.Next, Guard.Enabled, Of;
    assert {t} - {t} == {};
  }

  lemma StepMoves(s: State, t: Task, x: Picture, step: Step)
    requires Shows(s, t, x) && Moved(x, step, t).Some?
    ensures Enabled(s, step, {t.model}) && Shows(Next(s, step, {t.model}), t, Moved(x, step, t).value)
  {
    hide Enabled, Next, Shows;
    match step
    case Start => ProcessMoves(s, t, x, step);
    case Kill => ProcessMoves(s, t, x, step);
    case Take(_, _) => ProcessMoves(s, t, x, step);
    case Save(_) => RowMoves(s, t, x, step);
    case Settle(_) => RowMoves(s, t, x, step);
    case Publish(_) =>
    case Exit =>
    case RemoveBlock(_) =>
    case _ => GuardMoves(s, t, x, step);
  }

  function MovedBy(x: Picture, steps: seq<Step>, n: nat, t: Task): Option<Picture>
    requires n <= |steps|
  {
    if n == 0 then Some(x)
    else
      var y := MovedBy(x, steps, n - 1, t);
      if y.None? then None else Moved(y.value, steps[n - 1], t)
  }

  lemma {:induction false} OneMore(s: State, steps: seq<Step>, step: Step, models: set<Model>)
    requires Legal(s, steps, models) && Enabled(After(s, steps, models), step, models)
    ensures Legal(s, steps + [step], models)
    ensures After(s, steps + [step], models) == Next(After(s, steps, models), step, models)
    decreases |steps|
  {
    hide Next, Enabled;
    var all := steps + [step];
    if steps == [] {
      assert all[1..] == [];
    } else {
      assert all[0] == steps[0] && all[1..] == steps[1..] + [step];
      OneMore(Next(s, steps[0], models), steps[1..], step, models);
    }
  }

  lemma {:induction false} RunMoves(s: State, t: Task, x: Picture, steps: seq<Step>, n: nat)
    requires Shows(s, t, x) && n <= |steps| && MovedBy(x, steps, n, t).Some?
    ensures Legal(s, steps[..n], {t.model})
    ensures Shows(After(s, steps[..n], {t.model}), t, MovedBy(x, steps, n, t).value)
  {
    hide Next, Enabled, Shows, Moved;
    if n > 0 {
      RunMoves(s, t, x, steps, n - 1);
      StepMoves(After(s, steps[..n - 1], {t.model}), t, MovedBy(x, steps, n - 1, t).value, steps[n - 1]);
      OneMore(s, steps[..n - 1], steps[n - 1], {t.model});
      assert steps[..n] == steps[..n - 1] + [steps[n - 1]];
    }
  }

  lemma PublishShows(t: Task)
    ensures Enabled(EMPTY, Publish(t), {t.model}) && Shows(Next(EMPTY, Publish(t), {t.model}), t, WAITING)
  {
  }

  lemma FromTheStart(t: Task, steps: seq<Step>)
    requires MovedBy(WAITING, steps, |steps|, t).Some?
    ensures Legal(EMPTY, [Publish(t)] + steps, {t.model})
    ensures Shows(After(EMPTY, [Publish(t)] + steps, {t.model}), t, MovedBy(WAITING, steps, |steps|, t).value)
  {
    hide Next, Enabled, Shows, MovedBy;
    PublishShows(t);
    RunMoves(Next(EMPTY, Publish(t), {t.model}), t, WAITING, steps, |steps|);
    assert steps[..|steps|] == steps && ([Publish(t)] + steps)[1..] == steps;
  }

  /** A task is killed in its first run, and acknowledged without vectors at its second delivery. */
  lemma StruckBeforeSaving(t: Task)
    ensures var steps := [Publish(t)] + [Start, Take(t.model, {t}), Check, WriteMarker, Kill,
                                         Start, Take(t.model, {t}), Check, Settle(t)];
            && Legal(EMPTY, steps, {t.model})
            && var s := After(EMPTY, steps, {t.model}); t in s.acked && t !in s.embedded && Of(s.hits, t) == 1
  {
    hide Next, Enabled, Legal, After;
    var steps := [Start, Take(t.model, {t}), Check, WriteMarker, Kill, Start, Take(t.model, {t}), Check, Settle(t)];
    assert MovedBy(WAITING, steps, 1, t) == Some(WAITING.(phase := Guard.Idle));
    assert MovedBy(WAITING, steps, 2, t) == Some(WAITING.(phase := Guard.Idle, stage := Some(Fresh)));
    assert MovedBy(WAITING, steps, 4, t)
        == Some(WAITING.(phase := Guard.Marked, stage := Some(Fresh), running := true));
    assert MovedBy(WAITING, steps, 6, t) == Some(WAITING.(phase := Guard.Idle, running := true, hits := 1));
    assert MovedBy(WAITING, steps, 8, t)
        == Some(WAITING.(phase := Guard.Idle, stage := Some(Refused), blocked := true, hits := 1));
    FromTheStart(t, steps);
  }

  function SaveThenStrike(t: Task): seq<Step> {
    [Start, Take(t.model, {t}), Check, WriteMarker, Remember, Finish(true), RemoveMarker, Save({t}), Kill,
     Start, Take(t.model, {t}), Check, WriteMarker, Kill, Start, Take(t.model, {t}), Check, Settle(t)]
  }

  lemma FirstIsMarked(t: Task)
    ensures MovedBy(WAITING, SaveThenStrike(t), 4, t)
         == Some(WAITING.(phase := Guard.Marked, stage := Some(Fresh), running := true))
  {
    assert MovedBy(WAITING, SaveThenStrike(t), 1, t) == Some(WAITING.(phase := Guard.Idle));
    assert MovedBy(WAITING, SaveThenStrike(t), 2, t) == Some(WAITING.(phase := Guard.Idle, stage := Some(Fresh)));
  }

  lemma FirstIsSaved(t: Task)
    ensures MovedBy(WAITING, SaveThenStrike(t), 9, t) == Some(WAITING.(embedded := true))
  {
    FirstIsMarked(t);
    assert MovedBy(WAITING, SaveThenStrike(t), 6, t)
        == Some(WAITING.(phase := Guard.Leaving, stage := Some(Encoded), unsaved := true, running := true));
    assert MovedBy(WAITING, SaveThenStrike(t), 8, t)
        == Some(WAITING.(phase := Guard.Idle, stage := Some(Encoded), embedded := true));
  }

  lemma SecondIsStruck(t: Task)
    ensures MovedBy(WAITING, SaveThenStrike(t), 14, t) == Some(WAITING.(embedded := true, running := true, hits := 1))
  {
    FirstIsSaved(t);
    assert MovedBy(WAITING, SaveThenStrike(t), 10, t) == Some(WAITING.(phase := Guard.Idle, embedded := true));
    assert MovedBy(WAITING, SaveThenStrike(t), 12, t)
        == Some(WAITING.(phase := Guard.Checked, stage := Some(Fresh), embedded := true));
  }

  /** Its vectors are saved, the process dies before the acknowledgement, and the second run is killed: the
      third delivery is acknowledged, with vectors. */
  lemma StruckAfterSaving(t: Task)
    ensures var steps := [Publish(t)] + SaveThenStrike(t);
            && Legal(EMPTY, steps, {t.model})
            && var s := After(EMPTY, steps, {t.model}); t in s.acked && t in s.embedded && Of(s.hits, t) == 1
  {
    hide Next, Enabled, Legal, After;
    SecondIsStruck(t);
    assert MovedBy(WAITING, SaveThenStrike(t), 16, t)
        == Some(WAITING.(phase := Guard.Idle, stage := Some(Fresh), embedded := true, running := true, hits := 1));
    FromTheStart(t, SaveThenStrike(t));
  }
}
