/**
 * The stage sequence of `main` as a state machine: version probe, support
 * library build, collection of PART 1 and PART 2, main compile, execution.
 * Each external process is an opaque result supplied by the world; each
 * stage either moves on or stops in the one absorbing failure phase with the
 * fixed message `main` prints.
 */
module Session {
  import opened Wrappers
  import opened Collector
  import opened Assembly

  /** The result of spawning one external process and waiting for it. */
  datatype Proc =
    | SpawnFailed                              // `.output()` returned an error
    | Exited(success: bool, stdout: string)    // the process ran; its exit status and captured stdout

  /**
   * Everything outside the harness: the outcome of each process it spawns,
   * the `FLAG` environment variable, and the participant's raw input lines,
   * one element per `read_line` call (see `Lines.ReadLineShaped`).
   * The main compile and the executable may behave differently for every
   * source text, so they are functions of the `main.rs` content.
   */
  datatype World = World(
    probe: Proc,
    flag: Option<string>,
    libBuild: Proc,
    stdin: seq<string>,
    compile: string -> Proc,
    execute: string -> Proc)

  datatype Stage = ProbeStage | LibStage | CollectStage | CompileStage | RunStage

  /** The order in which `main` attempts its stages. */
  const AllStages: seq<Stage> := [ProbeStage, LibStage, CollectStage, CompileStage, RunStage]

  /** How a failed session ends. */
  datatype Failure =
    | ExitOne(message: string)   // fixed message printed, then `process::exit(1)`
    | Panic(message: string)     // an `.expect(message)` failed
    | Hang                       // a read loop waits for `[END]` forever

  datatype Phase =
    | Probe
    | BuildLib(version: string, flag: string)
    | Collecting(flag: string)
    | Compile(src: string)
    | Execute(src: string)
    | Done
    | Failed(reason: Failure)
  {
    predicate Terminal() { Done? || Failed? }
  }

  /** The machine state: the phase, what was printed so far, and the stages attempted. */
  datatype State = State(phase: Phase, stdout: string, stderr: string, attempted: seq<Stage>)

  const NoRustc: string := "no rustc found"
  const Oops: string := "Oops..."
  const TryAgain: string := "Oh no, please try again..."

  const Initial: State := State(Probe, "", "", [])

  /** Ends the session: `println!` of a fixed message, then exit status 1. */
  function ExitWith(s: State, stage: Stage, message: string): State
  {
    State(Failed(ExitOne(message)), s.stdout + message + "\n", s.stderr, s.attempted + [stage])
  }

  /** One stage of `main`. */
  function Step(w: World, s: State): State
  {
    match s.phase
    case Probe =>
      var tried := s.attempted + [ProbeStage];
      (match w.probe
       case SpawnFailed => State(Failed(Panic("failed to check rustc version")), s.stdout, s.stderr, tried)
       case Exited(ok, version) =>
         if !ok then State(Failed(ExitOne(NoRustc)), s.stdout, s.stderr + NoRustc + "\n", tried)
         else if w.flag.None? then State(Failed(Panic("no FLAG env var found")), s.stdout, s.stderr, tried)
         else State(BuildLib(version, w.flag.value), s.stdout, s.stderr, tried))
    case BuildLib(version, flag) =>
      (match w.libBuild
       case SpawnFailed => State(Failed(Panic("failed to run rustc")), s.stdout, s.stderr, s.attempted + [LibStage])
       case Exited(ok, _) =>
         if !ok then ExitWith(s, LibStage, Oops)
         else State(Collecting(flag), s.stdout + Banner(version, flag), s.stderr, s.attempted + [LibStage]))
    case Collecting(flag) =>
      var tried := s.attempted + [CollectStage];
      (match Collect(w.stdin, 0)
       case None => State(Failed(Hang), s.stdout, s.stderr, tried)
       case Some(p1) =>
         match Collect(w.stdin, p1.next)
         case None => State(Failed(Hang), s.stdout + PromptPart2, s.stderr, tried)
         case Some(p2) =>
           State(Compile(SourceFile(p1.text, p2.text, flag)), s.stdout + PromptPart2, s.stderr, tried))
    case Compile(src) =>
      (match w.compile(src)
       case SpawnFailed => State(Failed(Panic("failed to run rustc")), s.stdout, s.stderr, s.attempted + [CompileStage])
       case Exited(ok, _) =>
         if !ok then ExitWith(s, CompileStage, Oops)
         else State(Execute(src), s.stdout, s.stderr, s.attempted + [CompileStage]))
    case Execute(src) =>
      (match w.execute(src)
       case SpawnFailed => State(Failed(Panic("failed to run built exe")), s.stdout, s.stderr, s.attempted + [RunStage])
       case Exited(ok, out) =>
         if !ok then ExitWith(s, RunStage, TryAgain)
         else State(Done, s.stdout + out + "\n", s.stderr, s.attempted + [RunStage]))
    case Done => s
    case Failed(_) => s
  }

  function Run(w: World, s: State, n: nat): State
    decreases n
  {
    if n == 0 then s else Run(w, Step(w, s), n - 1)
  }

  /** A whole session: the five stages from the start. */
  function RunSession(w: World): State
  {
    Run(w, Initial, |AllStages|)
  }

  /**
   * One step attempts at most one more stage, never takes back output, and
   * leaves a finished session alone.
   */
  lemma StepSpec(w: World, s: State)
    ensures s.stdout <= Step(w, s).stdout && s.stderr <= Step(w, s).stderr
    ensures s.phase.Terminal() ==> Step(w, s) == s
    ensures !s.phase.Terminal() ==> Step(w, s).attempted == s.attempted + [Step(w, s).attempted[|s.attempted|]]
  {
  }

  /** The failure phase and the success phase are absorbing. */
  lemma {:induction false} TerminalIsAbsorbing(w: World, s: State, n: nat)
    requires s.phase.Terminal()
    ensures Run(w, s, n) == s
  {
    if n > 0 {
      TerminalIsAbsorbing(w, Step(w, s), n - 1);
    }
  }

  /** How many stages a running phase has already got past. */
  function Progress(p: Phase): nat
  {
    match p
    case Probe => 0
    case BuildLib(_, _) => 1
    case Collecting(_) => 2
    case Compile(_) => 3
    case Execute(_) => 4
    case Done => 5
    case Failed(_) => 5
  }

  /**
   * The stages attempted so far are the first ones in the fixed order: as
   * many as the phase has got past, or, after a failure, up to and including
   * the stage that failed.
   */
  ghost predicate InOrder(s: State)
  {
    if s.phase.Failed? then 1 <= |s.attempted| <= |AllStages| && s.attempted == AllStages[..|s.attempted|]
    else s.attempted == AllStages[..Progress(s.phase)]
  }

  /** Each step keeps the stage order and moves a running phase one stage on. */
  lemma StepKeepsOrder(w: World, s: State)
    requires InOrder(s)
    ensures InOrder(Step(w, s))
    ensures !s.phase.Terminal() && !Step(w, s).phase.Failed? ==>
              Progress(Step(w, s).phase) == Progress(s.phase) + 1
  {
    var k := Progress(s.phase);
    if !s.phase.Terminal() {
      assert AllStages[..k] + [AllStages[k]] == AllStages[..k + 1];
    }
  }

  lemma {:induction false} RunFinishes(w: World, s: State, n: nat)
    requires InOrder(s)
    requires n + Progress(s.phase) >= |AllStages| || s.phase.Failed?
    ensures InOrder(Run(w, s, n)) && Run(w, s, n).phase.Terminal()
    decreases n
  {
    if s.phase.Terminal() {
      TerminalIsAbsorbing(w, s, n);
    } else {
      StepKeepsOrder(w, s);
      RunFinishes(w, Step(w, s), n - 1);
    }
  }

  /**
   * Within its five steps a session reaches a terminal phase: success, an
   * exit after a fixed message, a panic, or `Hang`, which stands for a read
   * loop that waits forever (the program itself never stops then). The
   * stages it attempted are a non-empty prefix of probe, library build,
   * collection, compile, run, so a failing stage is the last one attempted;
   * it succeeds only after all five.
   */
  lemma SessionStageOrder(w: World)
    ensures RunSession(w).phase.Terminal()
    ensures var tried := RunSession(w).attempted;
      && 1 <= |tried| <= |AllStages|
      && tried == AllStages[..|tried|]
      && (RunSession(w).phase.Done? ==> tried == AllStages)
  {
    RunFinishes(w, Initial, |AllStages|);
  }
}

/** What each way of ending a session looks like to the participant. */
module Outcomes {
  import opened Wrappers
  import opened Collector
  import opened Assembly
  import opened Session

  /** The version probe ran and succeeded, and `FLAG` is set. */
  predicate ProbeOk(w: World)
  {
    w.probe.Exited? && w.probe.success && w.flag.Some?
  }

  predicate LibOk(w: World)
  {
    w.libBuild.Exited? && w.libBuild.success
  }

  /** The `main.rs` that the participant's two fragments and the flag make. */
  function Submission(w: World): Option<string>
    requires w.flag.Some?
  {
    match CollectBoth(w.stdin)
    case None => None
    case Some(parts) => Some(SourceFile(parts.0, parts.1, w.flag.value))
  }

  /** What was printed before PART 1 was read: the banner and the PART 1 prompt. */
  function Shown(w: World): string
    requires ProbeOk(w)
  {
    Banner(w.probe.stdout, w.flag.value)
  }

  lemma {:induction false} RunUnfold(w: World, s: State, n: nat)
    requires n > 0
    ensures Run(w, s, n) == Run(w, Step(w, s), n - 1)
  {
  }

  /** The state after the probe, the library build and the collection, for a run that gets that far. */
  lemma ReachesCompile(w: World)
    requires ProbeOk(w) && LibOk(w) && Submission(w).Some?
    ensures RunSession(w) ==
      Run(w, State(Compile(Submission(w).value), Shown(w) + PromptPart2, "",
                   [ProbeStage, LibStage, CollectStage]), 2)
  {
    var s1 := Step(w, Initial);
    var s2 := Step(w, s1);
    var s3 := Step(w, s2);
    RunUnfold(w, Initial, 5);
    RunUnfold(w, s1, 4);
    RunUnfold(w, s2, 3);
    assert s2 == State(Collecting(w.flag.value), Shown(w), "", [ProbeStage, LibStage]);
    assert s3 == State(Compile(Submission(w).value), Shown(w) + PromptPart2, "", [ProbeStage, LibStage, CollectStage]);
  }

  /**
   * A failing version probe ends the session before anything is shown:
   * "no rustc found" goes to standard error and standard output stays empty.
   */
  lemma ProbeFailureShowsNothing(w: World)
    requires w.probe.Exited? && !w.probe.success
    ensures RunSession(w) == State(Failed(ExitOne(NoRustc)), "", NoRustc + "\n", [ProbeStage])
  {
    var s1 := Step(w, Initial);
    RunUnfold(w, Initial, 5);
    TerminalIsAbsorbing(w, s1, 4);
  }

  /**
   * A failing library build ends the session with "Oops..." before the
   * banner, the flag length or any prompt is printed.
   */
  lemma LibFailureShowsNoBanner(w: World)
    requires ProbeOk(w) && w.libBuild.Exited? && !w.libBuild.success
    ensures RunSession(w) == State(Failed(ExitOne(Oops)), Oops + "\n", "", [ProbeStage, LibStage])
  {
    var s1 := Step(w, Initial);
    var s2 := Step(w, s1);
    RunUnfold(w, Initial, 5);
    RunUnfold(w, s1, 4);
    TerminalIsAbsorbing(w, s2, 3);
  }

  /**
   * Input without two terminator lines leaves the session waiting forever,
   * after the banner (and the PART 2 prompt once PART 1 is complete).
   */
  lemma MissingTerminatorHangs(w: World)
    requires ProbeOk(w) && LibOk(w) && Submission(w).None?
    ensures RunSession(w).phase == Failed(Hang)
    ensures RunSession(w).stdout == Shown(w) + (if Collect(w.stdin, 0).Some? then PromptPart2 else "")
  {
    var s1 := Step(w, Initial);
    var s2 := Step(w, s1);
    assert s2 == State(Collecting(w.flag.value), Shown(w), "", [ProbeStage, LibStage]);
    var s3 := Step(w, s2);
    assert s3.phase == Failed(Hang);
    assert s3.stdout == Shown(w) + (if Collect(w.stdin, 0).Some? then PromptPart2 else "");
    RunUnfold(w, Initial, 5);
    RunUnfold(w, s1, 4);
    RunUnfold(w, s2, 3);
    TerminalIsAbsorbing(w, s3, 2);
  }

  /**
   * A session whose probe, `FLAG` lookup or library build does not succeed
   * fails early; one whose collection does not complete ends in
   * `Failed(Hang)`, waiting forever.
   */
  lemma EarlyFailure(w: World)
    requires !(ProbeOk(w) && LibOk(w) && Submission(w).Some?)
    ensures !(ProbeOk(w) && LibOk(w)) ==> RunSession(w).phase.Failed? && RunSession(w).phase.reason != Hang
    ensures ProbeOk(w) && LibOk(w) && Submission(w).None? ==> RunSession(w).phase == Failed(Hang)
  {
    var s1 := Step(w, Initial);
    RunUnfold(w, Initial, 5);
    if !ProbeOk(w) {
      TerminalIsAbsorbing(w, s1, 4);
    } else {
      var s2 := Step(w, s1);
      RunUnfold(w, s1, 4);
      if !LibOk(w) {
        TerminalIsAbsorbing(w, s2, 3);
      } else {
        MissingTerminatorHangs(w);
      }
    }
  }

  /** A submission the compiler rejects ends with "Oops...", and nothing is run. */
  lemma CompileRejectionSaysOops(w: World)
    requires ProbeOk(w) && LibOk(w) && Submission(w).Some?
    requires w.compile(Submission(w).value).Exited? && !w.compile(Submission(w).value).success
    ensures RunSession(w) ==
      State(Failed(ExitOne(Oops)), Shown(w) + PromptPart2 + Oops + "\n", "",
            [ProbeStage, LibStage, CollectStage, CompileStage])
  {
    ReachesCompile(w);
    var s3 := State(Compile(Submission(w).value), Shown(w) + PromptPart2, "", [ProbeStage, LibStage, CollectStage]);
    RunUnfold(w, s3, 2);
    TerminalIsAbsorbing(w, Step(w, s3), 1);
  }

  /** A compiled submission that exits unsuccessfully ends with "Oh no, please try again...". */
  lemma RunFailureSaysTryAgain(w: World)
    requires ProbeOk(w) && LibOk(w) && Submission(w).Some?
    requires w.compile(Submission(w).value).Exited? && w.compile(Submission(w).value).success
    requires w.execute(Submission(w).value).Exited? && !w.execute(Submission(w).value).success
    ensures RunSession(w) ==
      State(Failed(ExitOne(TryAgain)), Shown(w) + PromptPart2 + TryAgain + "\n", "", AllStages)
  {
    ReachesCompile(w);
    var s3 := State(Compile(Submission(w).value), Shown(w) + PromptPart2, "", [ProbeStage, LibStage, CollectStage]);
    RunUnfold(w, s3, 2);
    RunUnfold(w, Step(w, s3), 1);
  }

  /**
   * When every stage succeeds the session ends in `Done`; the participant
   * has seen the banner, the PART 2 prompt and the executable's own standard
   * output, verbatim, and nothing went to standard error.
   */
  lemma AllStagesSucceed(w: World)
    requires ProbeOk(w) && LibOk(w) && Submission(w).Some?
    requires w.compile(Submission(w).value).Exited? && w.compile(Submission(w).value).success
    requires w.execute(Submission(w).value).Exited? && w.execute(Submission(w).value).success
    ensures RunSession(w) ==
      State(Done, Shown(w) + PromptPart2 + w.execute(Submission(w).value).stdout + "\n", "", AllStages)
  {
    var src := Submission(w).value;
    ReachesCompile(w);
    var s3 := State(Compile(src), Shown(w) + PromptPart2, "", [ProbeStage, LibStage, CollectStage]);
    var s4 := Step(w, s3);
    RunUnfold(w, s3, 2);
    RunUnfold(w, s4, 1);
    assert s4 == State(Execute(src), s3.stdout, "", s3.attempted + [CompileStage]);
  }

  /**
   * A session succeeds exactly when every stage does; the participant then
   * sees the banner, the PART 2 prompt and the executable's own standard
   * output, verbatim, and nothing goes to standard error.
   */
  lemma SuccessIffAllStagesSucceed(w: World)
    ensures RunSession(w).phase == Done <==>
      && ProbeOk(w) && LibOk(w) && Submission(w).Some?
      && w.compile(Submission(w).value).Exited? && w.compile(Submission(w).value).success
      && w.execute(Submission(w).value).Exited? && w.execute(Submission(w).value).success
    ensures RunSession(w).phase == Done ==>
      RunSession(w) == State(Done, Shown(w) + PromptPart2 + w.execute(Submission(w).value).stdout + "\n",
                             "", AllStages)
  {
    if !(ProbeOk(w) && LibOk(w) && Submission(w).Some?) {
      EarlyFailure(w);
    } else {
      var src := Submission(w).value;
      if w.compile(src).Exited? && w.compile(src).success && w.execute(src).Exited? && w.execute(src).success {
        AllStagesSucceed(w);
      } else {
        ReachesCompile(w);
        var s3 := State(Compile(src), Shown(w) + PromptPart2, "", [ProbeStage, LibStage, CollectStage]);
        var s4 := Step(w, s3);
        RunUnfold(w, s3, 2);
        RunUnfold(w, s4, 1);
        if w.compile(src).Exited? && w.compile(src).success {
          assert s4 == State(Execute(src), s3.stdout, "", s3.attempted + [CompileStage]);
        } else {
          TerminalIsAbsorbing(w, s4, 1);
        }
      }
    }
  }
}
