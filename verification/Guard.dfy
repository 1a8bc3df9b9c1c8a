/** The on-disk marker protocol that stops a killed local run from being retried for ever. */
module Guard {

  type Path = string

  /** The file name of a model: everything but letters, digits, '.', '_' and '-' becomes '_'. */
  function PathOf(model: string): (p: Path)
    ensures |p| == |model|
  {
    seq(|model|, i requires 0 <= i < |model| => if Kept(model[i]) then model[i] else '_')
  }

  /** Two models share their files exactly when their names have the same length and differ only where
      both have a character other than a letter, a digit, '.', '_' and '-', or '_' itself. */
  lemma SharePathIff(a: string, b: string)
    ensures PathOf(a) == PathOf(b) <==>
            |a| == |b| && forall i :: 0 <= i < |a| ==> a[i] == b[i] || (Blurred(a[i]) && Blurred(b[i]))
  {
    if |a| == |b| && forall i :: 0 <= i < |a| ==> a[i] == b[i] || (Blurred(a[i]) && Blurred(b[i])) {
      forall i | 0 <= i < |a| ensures PathOf(a)[i] == PathOf(b)[i] {}
    }
    if PathOf(a) == PathOf(b) {
      forall i | 0 <= i < |a| ensures a[i] == b[i] || (Blurred(a[i]) && Blurred(b[i])) {
        assert PathOf(a)[i] == PathOf(b)[i];
      }
    }
  }

  predicate Blurred(c: char) {
    c == '_' || !('A' <= c <= 'Z' || 'a' <= c <= 'z' || '0' <= c <= '9' || c == '.' || c == '-')
  }

  predicate Kept(c: char) {
    'A' <= c <= 'Z' || 'a' <= c <= 'z' || '0' <= c <= '9' || c == '.' || c == '_' || c == '-'
  }

  /** The two marker files of every model; what survives a kill. */
  datatype Disk = Disk(running: set<Path>, blocked: set<Path>)

  /** A marker that no run of this process owns turns into a block. */
  function AfterCheck(d: Disk, mine: bool, m: Path): Disk {
    if !mine && m in d.running then Disk(d.running - {m}, d.blocked + {m}) else d
  }

  class GuardFiles {
    var disk: Disk

    constructor ()
      ensures disk == Disk({}, {})
    {
      disk := Disk({}, {});
    }
  }

  class LocalRunGuard {
    const files: GuardFiles
    var active: set<string>

    constructor (files: GuardFiles)
      ensures this.files == files && active == {}
    {
      this.files := files;
      active := {};
    }

    /** True means EmbeddingUnavailableError. */
    method Check(model: string) returns (refused: bool)
      modifies files
      ensures files.disk == AfterCheck(old(files.disk), model in active, PathOf(model))
      ensures refused <==> PathOf(model) in files.disk.blocked
      ensures !refused && model !in active ==> PathOf(model) !in files.disk.running
    {
      var m := PathOf(model);
      if model !in active && m in files.disk.running {
        files.disk := Disk(files.disk.running - {m}, files.disk.blocked + {m});
      }
      refused := m in files.disk.blocked;
    }

    /** Entry of the context manager: check, write the marker, remember the run as ours. */
    method Enter(model: string) returns (refused: bool)
      modifies this`active, files
      ensures refused <==> PathOf(model) in AfterCheck(old(files.disk), model in old(active), PathOf(model)).blocked
      ensures refused ==> active == old(active)
                          && files.disk == AfterCheck(old(files.disk), model in old(active), PathOf(model))
      ensures !refused ==> active == old(active) + {model}
                           && files.disk == Disk(old(files.disk).running + {PathOf(model)}, old(files.disk).blocked)
    {
      refused := Check(model);
      if !refused {
        files.disk := files.disk.(running := files.disk.running + {PathOf(model)});
        active := active + {model};
      }
    }

    /** Exit of the context manager, after success or an ordinary exception. */
    method Leave(model: string)
      modifies this`active, files
      ensures active == old(active) - {model}
      ensures files.disk == Disk(old(files.disk).running - {PathOf(model)}, old(files.disk).blocked)
    {
      active := active - {model};
      files.disk := files.disk.(running := files.disk.running - {PathOf(model)});
    }
  }

  /** A run that finishes, or raises, leaves no trace behind. */
  method GuardedRun(guard: LocalRunGuard, model: string) returns (ran: bool)
    requires model !in guard.active
    modifies guard`active, guard.files
    ensures guard.active == old(guard.active)
    ensures ran <==> old(PathOf(model) !in guard.files.disk.running && PathOf(model) !in guard.files.disk.blocked)
    ensures ran ==> guard.files.disk == old(guard.files.disk)
    ensures !ran ==> PathOf(model) in guard.files.disk.blocked
  {
    var refused := guard.Enter(model);
    ran := !refused;
    if ran {
      guard.Leave(model);
    }
  }

  // ----------------------------------------------------- runs with kills at any point

  /** How far the guarded run of one model has got in the live process. */
  datatype Phase = Off | Idle | Checked | Marked | Active | Leaving

  datatype Process = Down | Up(phase: map<Path, Phase>)

  /** `dead` holds the models killed in a guarded run since their block was last removed. */
  datatype State = State(disk: Disk, process: Process, dead: set<Path>, everKilled: set<Path>,
                         guardedKills: nat, clears: nat)

  datatype Step =
    | Start
    | Check(m: Path)
    | WriteMarker(m: Path)
    | Remember(m: Path)
    | Finish(m: Path)
    | RemoveMarker(m: Path)
    | Kill
    | RemoveBlock(m: Path)

  const FRESH := State(Disk({}, {}), Down, {}, {}, 0, 0)

  /** Off when no process is up. */
  function PhaseOf(s: State, m: Path): Phase {
    if s.process.Up? && m in s.process.phase then s.process.phase[m] else Off
  }

  predicate At(s: State, m: Path, p: Phase) {
    PhaseOf(s, m) == p
  }

  function Move(s: State, m: Path, p: Phase): State
    requires s.process.Up?
  {
    s.(process := Up(s.process.phase[m := p]))
  }

  predicate MarkerPhase(p: Phase) {
    p == Marked || p == Active || p == Leaving
  }

  /** The models whose marker the dying process leaves on disk. */
  function InRun(s: State, models: set<Path>): set<Path> {
    set m | m in models && MarkerPhase(PhaseOf(s, m))
  }

  predicate Enabled(s: State, step: Step, models: set<Path>) {
    match step
    case Start => s.process.Down?
    case Check(m) => m in models && At(s, m, Idle)
    case WriteMarker(m) => m in models && At(s, m, Checked)
    case Remember(m) => m in models && At(s, m, Marked)
    case Finish(m) => m in models && At(s, m, Active)
    case RemoveMarker(m) => m in models && At(s, m, Leaving)
    case Kill => s.process.Up?
    case RemoveBlock(m) => m in s.disk.blocked
  }

  function Next(s: State, step: Step, models: set<Path>): State
    requires Enabled(s, step, models)
  {
    match step
    case Start => s.(process := Up(map m | m in models :: Idle))
    case Check(m) =>
      var disk := AfterCheck(s.disk, false, m);
      if m in disk.blocked then s.(disk := disk) else Move(s.(disk := disk), m, Checked)
    case WriteMarker(m) => Move(s, m, Marked).(disk := s.disk.(running := s.disk.running + {m}))
    case Remember(m) => Move(s, m, Active)
    case Finish(m) => Move(s, m, Leaving)
    case RemoveMarker(m) => Move(s, m, Idle).(disk := s.disk.(running := s.disk.running - {m}))
    case Kill =>
      var killed := InRun(s, models);
      s.(process := Down, dead := s.dead + killed, everKilled := s.everKilled + killed,
         guardedKills := s.guardedKills + if killed == {} then 0 else 1)
    case RemoveBlock(m) =>
      s.(disk := s.disk.(blocked := s.disk.blocked - {m}), dead := s.dead - {m}, clears := s.clears + 1)
  }

  ghost predicate Legal(s: State, steps: seq<Step>, models: set<Path>)
    decreases |steps|
  {
    steps == [] || (Enabled(s, steps[0], models) && Legal(Next(s, steps[0], models), steps[1..], models))
  }

  ghost function After(s: State, steps: seq<Step>, models: set<Path>): State
    requires Legal(s, steps, models)
    decreases |steps|
  {
    if steps == [] then s else After(Next(s, steps[0], models), steps[1..], models)
  }

  /** What holds of each model: a model killed in a run cannot get past the check again, and
      a marker on disk is that of a run in progress or of a run that was killed. */
  ghost predicate ModelOk(s: State, m: Path) {
    var p := PhaseOf(s, m);
    && !(m in s.disk.running && m in s.disk.blocked)
    && (MarkerPhase(p) ==> m in s.disk.running)
    && (p == Checked ==> m !in s.disk.running && m !in s.disk.blocked)
    && (m in s.dead ==> (p == Off || p == Idle) && (m in s.disk.running || m in s.disk.blocked))
    && (m in s.disk.running ==> MarkerPhase(p) || (m in s.dead && m in s.everKilled))
    && (m in s.disk.blocked ==> m in s.everKilled)
  }

  ghost predicate Shape(s: State, models: set<Path>) {
    && s.dead <= models && s.disk.running <= models && s.disk.blocked <= models
    && (s.process.Up? ==> s.process.phase.Keys == models)
  }

  ghost predicate Inv(s: State, models: set<Path>) {
    && Shape(s, models)
    && (forall m :: m in models ==> ModelOk(s, m))
    && s.guardedKills <= |s.dead| + s.clears
  }

  lemma StepKeepsModel(s: State, step: Step, models: set<Path>, m: Path)
    requires Inv(s, models) && Enabled(s, step, models) && m in models
    ensures ModelOk(Next(s, step, models), m)
  {
    assert ModelOk(s, m);
  }

  lemma KillHitsOnlyTheLiving(s: State, models: set<Path>)
    requires Inv(s, models)
    ensures InRun(s, models) !! s.dead
  {
    forall m | m in InRun(s, models)
      ensures m !in s.dead
    {
      assert ModelOk(s, m);
    }
  }

  lemma StepKeepsShape(s: State, step: Step, models: set<Path>)
    requires Shape(s, models) && Enabled(s, step, models)
    ensures Shape(Next(s, step, models), models)
  {
    match step {
      case Start => assert (map m: Path | m in models :: Idle).Keys == models;
      case _ =>
    }
  }

  lemma StepKeepsCount(s: State, step: Step, models: set<Path>)
    requires Enabled(s, step, models) && s.guardedKills <= |s.dead| + s.clears && InRun(s, models) !! s.dead
    ensures var t := Next(s, step, models); t.guardedKills <= |t.dead| + t.clears
  {
    hide PhaseOf, InRun;
    match step {
      case Kill =>
        assert |s.dead + InRun(s, models)| == |s.dead| + |InRun(s, models)|;
      case RemoveBlock(m) =>
        assert |s.dead - {m}| >= |s.dead| - 1;
      case _ =>
    }
  }

  lemma StepKeepsInv(s: State, step: Step, models: set<Path>)
    requires Inv(s, models) && Enabled(s, step, models)
    ensures Inv(Next(s, step, models), models)
  {
    hide ModelOk, PhaseOf, InRun, Next, Enabled, Shape;
    forall m | m in models
      ensures ModelOk(Next(s, step, models), m)
    {
      StepKeepsModel(s, step, models, m);
    }
    StepKeepsShape(s, step, models);
    KillHitsOnlyTheLiving(s, models);
    StepKeepsCount(s, step, models);
  }

  lemma {:induction false} Subset(a: set<Path>, b: set<Path>)
    requires a <= b
    ensures |a| <= |b|
  {
    if a != {} {
      var x :| x in a;
      Subset(a - {x}, b - {x});
    }
  }

  lemma {:induction false} RunKeepsInv(s: State, steps: seq<Step>, models: set<Path>)
    requires Inv(s, models) && Legal(s, steps, models)
    ensures Inv(After(s, steps, models), models)
    decreases |steps|
  {
    if steps != [] {
      StepKeepsInv(s, steps[0], models);
      RunKeepsInv(Next(s, steps[0], models), steps[1..], models);
    }
  }

  /** Over every run, a model's guarded run is killed at most once until its block is removed:
      whatever is in a run when the process dies was not killed before. */
  lemma NeverKilledTwice(steps: seq<Step>, models: set<Path>)
    requires Legal(FRESH, steps, models)
    ensures InRun(After(FRESH, steps, models), models) !! After(FRESH, steps, models).dead
  {
    RunKeepsInv(FRESH, steps, models);
    KillHitsOnlyTheLiving(After(FRESH, steps, models), models);
  }

  /** So the kill, restart, redeliver loop is bounded: kills that hit a guarded run number at most
      one per model plus one per block removed by hand. */
  lemma GuardedKillsBounded(steps: seq<Step>, models: set<Path>)
    requires Legal(FRESH, steps, models)
    ensures After(FRESH, steps, models).guardedKills <= |models| + After(FRESH, steps, models).clears
  {
    RunKeepsInv(FRESH, steps, models);
    Subset(After(FRESH, steps, models).dead, models);
  }

  /** A block appears only for a model whose marker was on disk when a process died. */
  lemma BlockOnlyAfterKill(steps: seq<Step>, models: set<Path>)
    requires Legal(FRESH, steps, models)
    ensures After(FRESH, steps, models).disk.blocked <= After(FRESH, steps, models).everKilled
  {
    RunKeepsInv(FRESH, steps, models);
    var s := After(FRESH, steps, models);
    forall m | m in s.disk.blocked
      ensures m in s.everKilled
    {
      assert ModelOk(s, m);
    }
  }
}
