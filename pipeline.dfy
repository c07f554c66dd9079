/**
 * The control flow of `main` in scripts/build.py as a state machine over
 * the planned steps: each step either lets the run continue or stops it,
 * and a stopped run runs nothing after the step that stopped it.
 */
module MainFlow {
  import opened Wrappers
  import opened Paths
  import opened Effects
  import Args
  import Platform

  /** The steps of `main` after the arguments have been read. */
  datatype Step = Submodules | Imgui | Vma | Shaders | Compile | Run

  /** The order `main` runs the steps in; the VMA backend is built on Linux only. */
  function Plan(platform: string): (p: seq<Step>)
    ensures Vma in p <==> Platform.IsLinux(platform)
    ensures |p| == if Platform.IsLinux(platform) then 6 else 5
    ensures p[0] == Submodules && p[1] == Imgui
    ensures p[|p| - 3..] == [Shaders, Compile, Run]
    ensures forall i, j :: 0 <= i < j < |p| ==> p[i] != p[j]
  {
    [Submodules, Imgui] + (if platform == "linux" then [Vma] else []) + [Shaders, Compile, Run]
  }

  /** The VMA step, planned on Linux only, is never planned on a Windows host. */
  lemma VmaNeverOnWindows(platform: string)
    ensures Vma in Plan(platform) ==> !Platform.IsWindows(platform)
  {
    Platform.LinuxIsNotWindows(platform);
  }

  /** The programs each step may run. */
  function StepTools(s: Step): set<Tool> {
    match s
    case Submodules => {Git}
    case Imgui => {ImguiBuild}
    case Vma => {CMake, Make, Copy}
    case Shaders => {Chmod, ShaderCompiler}
    case Compile => {Odin}
    case Run => {Binary}
  }

  /** No two steps run the same program. */
  lemma StepToolsDisjoint(a: Step, b: Step)
    requires a != b
    ensures StepTools(a) * StepTools(b) == {}
  {
  }

  /** How the process ends: past the last line of `main`, through `sys.exit`, or by an uncaught exception. */
  datatype Termination = Completed | Exit(code: int) | Crash(exc: Exception)

  /** The process's exit status; Python exits with 1 after an uncaught exception. */
  function ExitStatus(t: Termination): (status: int)
    ensures status == 0 <==> t == Completed || t == Exit(0)
    ensures t.Crash? ==> status == 1
  {
    match t
    case Completed => 0
    case Exit(code) => code
    case Crash(_) => 1
  }

  datatype Outcome = Continue | Stop(how: Termination)
  datatype StepResult = StepResult(events: seq<Event>, outcome: Outcome)
  datatype RunResult = RunResult(events: seq<Event>, termination: Termination)

  /** What ending a call normally, by `sys.exit` or by an exception does to `main`. */
  function OutcomeOf(c: Completion): (o: Outcome)
    ensures o == Continue <==> c == Normal
  {
    match c
    case Normal => Continue
    case SysExit(code) => Stop(Exit(code))
    case Raised(e) => Stop(Crash(e))
  }

  /** `if not build_vma(): sys.exit(1)`, and an exception escaping `build_vma`. */
  function VmaOutcomeOf(o: VmaOutcome): (r: Outcome)
    ensures r == Continue <==> o == Returned(true)
  {
    match o
    case Returned(ok) => if ok then Continue else Stop(Exit(1))
    case Escaped(e) => Stop(Crash(e))
  }

  /** One step of `main`, run from the repository root under the given configuration. */
  function StepResultOf(s: Step, cfg: Args.Config, w: World): StepResult {
    match s
    case Submodules =>
      var e := InitSubmodulesEffect(w, w.root);
      StepResult(e.events, OutcomeOf(e.completion))
    case Imgui =>
      var e := BuildImguiEffect(w, w.root, cfg.forceImgui);
      StepResult(e.events, OutcomeOf(e.completion))
    case Vma =>
      var e := BuildVmaEffect(w, w.root);
      StepResult(e.events, VmaOutcomeOf(e.outcome))
    case Shaders =>
      var e := CompileShadersEffect(w, w.root);
      StepResult(e.events, OutcomeOf(e.completion))
    case Compile =>
      var e := BuildOdinEffect(w, w.root, cfg.debug, cfg.release, cfg.profile);
      StepResult(e.events, OutcomeOf(e.completion))
    case Run =>
      var e := RunBinaryEffect(w, w.root, Platform.OutputFile(w.platform, cfg.debug));
      StepResult(e.events, OutcomeOf(e.completion))
  }

  /**
   * Each step runs only its own programs, a step that stops the run makes
   * the process exit with status 1, and running the binary never stops it.
   */
  lemma StepFacts(s: Step, cfg: Args.Config, w: World)
    ensures RunsOnly(StepResultOf(s, cfg, w).events, StepTools(s))
    ensures StepResultOf(s, cfg, w).outcome.Stop? ==> ExitStatus(StepResultOf(s, cfg, w).outcome.how) == 1
    ensures s == Run ==> StepResultOf(s, cfg, w).outcome == Continue
  {
    match s
    case Imgui => BuildImguiEnds(w, w.root, cfg.forceImgui);
    case Vma => BuildVmaRunsOnly(w, w.root); BuildVmaEscapes(w, w.root);
    case Shaders => CompileShadersEnds(w, w.root);
    case _ =>
  }

  /** The state machine: run the steps in order until one stops the run. */
  function RunSteps(steps: seq<Step>, cfg: Args.Config, w: World): RunResult
    decreases |steps|
  {
    if steps == [] then RunResult([], Completed)
    else
      var first := StepResultOf(steps[0], cfg, w);
      match first.outcome
      case Stop(how) => RunResult(first.events, how)
      case Continue =>
        var rest := RunSteps(steps[1..], cfg, w);
        RunResult(first.events + rest.events, rest.termination)
  }

  /** What every step of the list does, one after another. */
  function AllEvents(steps: seq<Step>, cfg: Args.Config, w: World): seq<Event>
    decreases |steps|
  {
    if steps == [] then [] else StepResultOf(steps[0], cfg, w).events + AllEvents(steps[1..], cfg, w)
  }

  /** The programs any of the steps may run. */
  function ToolsOf(steps: seq<Step>): set<Tool>
    decreases |steps|
  {
    if steps == [] then {} else StepTools(steps[0]) + ToolsOf(steps[1..])
  }

  /** `main`: change to the repository root, read the arguments, then run the plan. */
  function Pipeline(argv: seq<string>, w: World): RunResult {
    var start := [ChangeDir(w.root)];
    match Args.ParseArgs(argv)
    case None => RunResult(start + [LogError], Exit(1))
    case Some(cfg) =>
      var r := RunSteps(Plan(w.platform), cfg, w);
      RunResult(start + r.events, r.termination)
  }

  /** `main` once the mode is known: the root, then the plan. */
  lemma PipelineOnMode(argv: seq<string>, w: World, cfg: Args.Config)
    requires Args.ParseArgs(argv) == Some(cfg)
    ensures var r := RunSteps(Plan(w.platform), cfg, w);
      Pipeline(argv, w) == RunResult([ChangeDir(w.root)] + r.events, r.termination)
  {
  }

  // ----- the state machine -----

  /** One turn of the state machine: the first step, then the rest unless it stopped the run. */
  lemma RunStepsFirst(steps: seq<Step>, cfg: Args.Config, w: World)
    requires steps != []
    ensures var first := StepResultOf(steps[0], cfg, w);
      RunSteps(steps, cfg, w)
        == if first.outcome.Stop? then RunResult(first.events, first.outcome.how)
           else RunResult(first.events + RunSteps(steps[1..], cfg, w).events, RunSteps(steps[1..], cfg, w).termination)
  {
  }


  /**
   * A run stops at the first step that stops it: everything up to and
   * including that step has happened, nothing after it, and the run ends
   * the way that step ended it.
   */
  lemma {:induction false} StopsAtFirstStop(steps: seq<Step>, cfg: Args.Config, w: World, i: nat)
    requires i < |steps|
    requires forall j :: 0 <= j < i ==> StepResultOf(steps[j], cfg, w).outcome == Continue
    requires StepResultOf(steps[i], cfg, w).outcome.Stop?
    ensures RunSteps(steps, cfg, w)
         == RunResult(AllEvents(steps[..i + 1], cfg, w), StepResultOf(steps[i], cfg, w).outcome.how)
    decreases i
  {
    var first := StepResultOf(steps[0], cfg, w);
    if i == 0 {
      assert steps[..1][1..] == [];
      assert AllEvents(steps[..1], cfg, w) == first.events + AllEvents([], cfg, w);
    } else {
      var tail := steps[1..];
      forall j | 0 <= j < i - 1
        ensures StepResultOf(tail[j], cfg, w).outcome == Continue
      {
        assert tail[j] == steps[j + 1];
      }
      StopsAtFirstStop(tail, cfg, w, i - 1);
      assert steps[..i + 1][1..] == tail[..i];
      assert steps[..i + 1][0] == steps[0];
    }
  }

  /** A run in which no step stops completes, having done everything every step does. */
  lemma {:induction false} CompletesWhenAllContinue(steps: seq<Step>, cfg: Args.Config, w: World)
    requires forall j :: 0 <= j < |steps| ==> StepResultOf(steps[j], cfg, w).outcome == Continue
    ensures RunSteps(steps, cfg, w) == RunResult(AllEvents(steps, cfg, w), Completed)
    decreases |steps|
  {
    if steps != [] {
      var tail := steps[1..];
      forall j | 0 <= j < |tail|
        ensures StepResultOf(tail[j], cfg, w).outcome == Continue
      {
        assert tail[j] == steps[j + 1];
      }
      CompletesWhenAllContinue(tail, cfg, w);
    }
  }

  /** A run completes exactly when no step stops it, and otherwise exits with status 1. */
  lemma {:induction false} RunStepsStatus(steps: seq<Step>, cfg: Args.Config, w: World)
    ensures RunSteps(steps, cfg, w).termination == Completed
        <==> forall j :: 0 <= j < |steps| ==> StepResultOf(steps[j], cfg, w).outcome == Continue
    ensures RunSteps(steps, cfg, w).termination != Completed ==> ExitStatus(RunSteps(steps, cfg, w).termination) == 1
    decreases |steps|
  {
    if steps != [] {
      var tail := steps[1..];
      StepFacts(steps[0], cfg, w);
      RunStepsStatus(tail, cfg, w);
      assert forall j :: 1 <= j < |steps| ==> steps[j] == tail[j - 1];
    }
  }

  /** The steps together run only their own programs. */
  lemma {:induction false} AllEventsRunsOnly(steps: seq<Step>, cfg: Args.Config, w: World)
    ensures RunsOnly(AllEvents(steps, cfg, w), ToolsOf(steps))
    decreases |steps|
  {
    if steps != [] {
      AllEventsRunsOnly(steps[1..], cfg, w);
      StepFacts(steps[0], cfg, w);
      var head := StepResultOf(steps[0], cfg, w).events;
      RunsOnlyWiden(head, StepTools(steps[0]), ToolsOf(steps));
      RunsOnlyWiden(AllEvents(steps[1..], cfg, w), ToolsOf(steps[1..]), ToolsOf(steps));
      RunsOnlyAppend(head, AllEvents(steps[1..], cfg, w), ToolsOf(steps));
    }
  }

  /** A step missing from a list shares no program with the list. */
  lemma {:induction false} ToolsOfAvoids(steps: seq<Step>, s: Step)
    requires s !in steps
    ensures ToolsOf(steps) * StepTools(s) == {}
    decreases |steps|
  {
    if steps != [] {
      StepToolsDisjoint(steps[0], s);
      ToolsOfAvoids(steps[1..], s);
    }
  }

  /** None of the events runs any of `tools`. */
  predicate NeverRuns(events: seq<Event>, tools: set<Tool>) {
    forall k :: 0 <= k < |events| && events[k].Exec? ==> events[k].tool !in tools
  }

  // ----- properties of `main` -----

  /** Neither `--debug` nor `--release`: an error, exit status 1, and no program is run. */
  lemma UsageError(argv: seq<string>, w: World)
    requires Args.DEBUG_FLAG !in argv && Args.RELEASE_FLAG !in argv
    ensures Pipeline(argv, w) == RunResult([ChangeDir(w.root), LogError], Exit(1))
    ensures ExitStatus(Pipeline(argv, w).termination) == 1
  {
  }

  /**
   * A step that stops the run (a failed chmod, submodule update, ImGui or
   * VMA build, shader script or compiler) ends it with exit status 1, and
   * no program of any later step is run.
   */
  lemma FatalStepEndsRun(argv: seq<string>, w: World, i: nat)
    requires Args.ParseArgs(argv).Some?
    requires i < |Plan(w.platform)|
    requires forall j :: 0 <= j < i ==>
      StepResultOf(Plan(w.platform)[j], Args.ParseArgs(argv).value, w).outcome == Continue
    requires StepResultOf(Plan(w.platform)[i], Args.ParseArgs(argv).value, w).outcome.Stop?
    ensures ExitStatus(Pipeline(argv, w).termination) == 1
    ensures forall j :: i < j < |Plan(w.platform)| ==>
      NeverRuns(Pipeline(argv, w).events, StepTools(Plan(w.platform)[j]))
  {
    var cfg := Args.ParseArgs(argv).value;
    var p := Plan(w.platform);
    StopsAtFirstStop(p, cfg, w, i);
    StepFacts(p[i], cfg, w);
    var done := AllEvents(p[..i + 1], cfg, w);
    AllEventsRunsOnly(p[..i + 1], cfg, w);
    RunsOnlyAppend([ChangeDir(w.root)], done, ToolsOf(p[..i + 1]));
    assert Pipeline(argv, w).events == [ChangeDir(w.root)] + done;
    forall j | i < j < |p|
      ensures NeverRuns(Pipeline(argv, w).events, StepTools(p[j]))
    {
      assert p[j] !in p[..i + 1];
      ToolsOfAvoids(p[..i + 1], p[j]);
    }
  }

  /** The run exits with 0 exactly when the arguments name a mode and no step stops it. */
  lemma SuccessIffNoStepStops(argv: seq<string>, w: World)
    ensures ExitStatus(Pipeline(argv, w).termination) == 0
        <==> Args.ParseArgs(argv).Some? &&
             forall j :: 0 <= j < |Plan(w.platform)| ==>
               StepResultOf(Plan(w.platform)[j], Args.ParseArgs(argv).value, w).outcome == Continue
    ensures ExitStatus(Pipeline(argv, w).termination) in {0, 1}
  {
    if Args.ParseArgs(argv).Some? {
      RunStepsStatus(Plan(w.platform), Args.ParseArgs(argv).value, w);
    }
  }

  /**
   * A failing or unstartable binary is reported with an `[ERROR]` line as
   * the last thing the run does, and the run still completes with status 0.
   */
  lemma BinaryFailureIsReported(argv: seq<string>, w: World)
    requires Args.ParseArgs(argv).Some?
    requires forall j :: 0 <= j < |Plan(w.platform)| ==>
      StepResultOf(Plan(w.platform)[j], Args.ParseArgs(argv).value, w).outcome == Continue
    requires w.result(Binary) != Exited(0)
    ensures Pipeline(argv, w).termination == Completed
    ensures ExitStatus(Pipeline(argv, w).termination) == 0
    ensures var e := Pipeline(argv, w).events;
      |e| >= 2 && e[|e| - 2] == Exec(Binary, [Platform.OutputFile(w.platform, Args.ParseArgs(argv).value.debug)], w.root)
      && e[|e| - 1] == LogError
  {
    var cfg := Args.ParseArgs(argv).value;
    var p := Plan(w.platform);
    CompletesWhenAllContinue(p, cfg, w);
    AllEventsLast(p, cfg, w);
  }

  /** The last step's events close the events of the whole list. */
  lemma {:induction false} AllEventsLast(steps: seq<Step>, cfg: Args.Config, w: World)
    requires steps != []
    ensures var last := StepResultOf(steps[|steps| - 1], cfg, w).events;
      var all := AllEvents(steps, cfg, w);
      |all| >= |last| && all[|all| - |last|..] == last
    decreases |steps|
  {
    if |steps| > 1 {
      AllEventsLast(steps[1..], cfg, w);
      assert steps[1..][|steps[1..]| - 1] == steps[|steps| - 1];
    } else {
      assert AllEvents(steps[1..], cfg, w) == [];
    }
  }

  /** Two worlds that differ at most in what running the binary does. */
  predicate AgreeExceptBinary(w: World, w': World) {
    && w'.platform == w.platform && w'.root == w.root
    && w'.imguiLibPresent == w.imguiLibPresent
    && w'.vmaLibPresent == w.vmaLibPresent && w'.vmaSourcePresent == w.vmaSourcePresent
    && forall t :: t != Binary ==> w'.result(t) == w.result(t)
  }

  /** Every step but running the binary does the same in such worlds. */
  lemma StepIgnoresBinary(s: Step, cfg: Args.Config, w: World, w': World)
    requires AgreeExceptBinary(w, w') && s != Run
    ensures StepResultOf(s, cfg, w) == StepResultOf(s, cfg, w')
  {
    match s
    case Submodules =>
      assert w'.result(Git) == w.result(Git);
    case Imgui =>
      assert w'.result(ImguiBuild) == w.result(ImguiBuild);
    case Vma =>
      assert w'.result(CMake) == w.result(CMake);
      assert w'.result(Make) == w.result(Make);
      assert w'.result(Copy) == w.result(Copy);
      assert VmaFirstFailure(w) == VmaFirstFailure(w');
    case Shaders =>
      assert w'.result(Chmod) == w.result(Chmod);
      assert w'.result(ShaderCompiler) == w.result(ShaderCompiler);
    case Compile =>
      assert w'.result(Odin) == w.result(Odin);
  }

  /** The binary's own result never changes how the run ends. */
  lemma BinaryResultIrrelevant(argv: seq<string>, w: World, w': World)
    requires AgreeExceptBinary(w, w')
    ensures Pipeline(argv, w).termination == Pipeline(argv, w').termination
  {
    if Args.ParseArgs(argv).Some? {
      var cfg := Args.ParseArgs(argv).value;
      forall s | s != Run
        ensures StepResultOf(s, cfg, w) == StepResultOf(s, cfg, w')
      {
        StepIgnoresBinary(s, cfg, w, w');
      }
      RunStepsIgnoreBinary(Plan(w.platform), cfg, w, w');
    }
  }

  lemma {:induction false} RunStepsIgnoreBinary(steps: seq<Step>, cfg: Args.Config, w: World, w': World)
    requires forall s :: s != Run ==> StepResultOf(s, cfg, w) == StepResultOf(s, cfg, w')
    ensures RunSteps(steps, cfg, w).termination == RunSteps(steps, cfg, w').termination
    decreases |steps|
  {
    if steps != [] {
      RunStepsIgnoreBinary(steps[1..], cfg, w, w');
    }
  }

  // ----- end-to-end -----

  /** `--rebuild-imgui` makes the ImGui step run the vendor build even when the library exists. */
  lemma RebuildFlagForcesImgui(argv: seq<string>, w: World)
    requires Args.ParseArgs(argv).Some? && Args.REBUILD_IMGUI_FLAG in argv
    ensures var e := StepResultOf(Imgui, Args.ParseArgs(argv).value, w).events;
      |e| >= 2 && e[1] == Exec(ImguiBuild, IMGUI_ARGV, w.root + IMGUI_DIR)
  {
  }

  /**
   * `--release` on a POSIX host other than Linux with the ImGui library in
   * place and every tool succeeding: the submodule update, the chmod and
   * the shader script, the release compile into `bin/vertex_release`, the
   * binary, and exit status 0; no vendor build runs.
   */
  lemma ReleaseOnMacScenario(w: World)
    requires w.platform == "darwin" && w.imguiLibPresent
    requires forall t :: w.result(t) == Exited(0)
    ensures Pipeline(["scripts/build.py", "--release"], w) == RunResult(
      [ChangeDir(w.root)]
      + [Exec(Git, ["git", "submodule", "update", "--init", "--recursive"], w.root)]
      + [Exec(Chmod, ["chmod", "+x", "./scripts/compile.sh"], w.root),
         Exec(ShaderCompiler, ["./scripts/compile.sh"], w.root)]
      + [MakeDirs(w.root + ["bin"]),
         Exec(Odin, ["odin", "build", "src", "-out:bin/vertex_release",
                     "-o:speed", "-no-bounds-check", "-disable-assert", "-show-timings"], w.root)]
      + [Exec(Binary, ["bin/vertex_release"], w.root)],
      Completed)
    ensures ExitStatus(Pipeline(["scripts/build.py", "--release"], w).termination) == 0
  {
    var argv := ["scripts/build.py", "--release"];
    assert Args.DEBUG_FLAG !in argv && Args.RELEASE_FLAG in argv;
    var cfg := Args.ParseArgs(argv).value;
    PipelineOnMode(argv, w, cfg);
    ReleaseOnMacRun(w, cfg);
    assert !Platform.IsWindows(w.platform) by {
      assert w.platform[..3] == "dar";
    }
    assert w.result(Git) == Exited(0) && w.result(Chmod) == Exited(0) && w.result(ShaderCompiler) == Exited(0);
    assert w.result(Odin) == Exited(0) && w.result(Binary) == Exited(0);
    SubmodulesSucceed(w, cfg);
    PosixShadersSucceed(w, cfg);
    PosixReleaseCompileSucceeds(w, cfg);
    PosixReleaseRunSucceeds(w, cfg);
  }

  /** The plan of the scenario runs to completion, step after step. */
  lemma ReleaseOnMacRun(w: World, cfg: Args.Config)
    requires w.platform == "darwin" && w.imguiLibPresent
    requires forall t :: w.result(t) == Exited(0)
    requires cfg == Args.Config(false, true, false, false)
    ensures RunSteps(Plan(w.platform), cfg, w) == RunResult(
      StepResultOf(Submodules, cfg, w).events + StepResultOf(Shaders, cfg, w).events
      + StepResultOf(Compile, cfg, w).events + StepResultOf(Run, cfg, w).events,
      Completed)
  {
    var p := Plan(w.platform);
    assert p == [Submodules, Imgui, Shaders, Compile, Run];
    assert !Platform.IsWindows(w.platform) by {
      assert w.platform[..3] == "dar";
    }
    assert w.result(Git) == Exited(0) && w.result(Chmod) == Exited(0) && w.result(ShaderCompiler) == Exited(0);
    assert w.result(Odin) == Exited(0) && w.result(Binary) == Exited(0);
    SubmodulesSucceed(w, cfg);
    ImguiSkipped(w, cfg);
    PosixShadersSucceed(w, cfg);
    PosixReleaseCompileSucceeds(w, cfg);
    PosixReleaseRunSucceeds(w, cfg);
    FiveStepsComplete(Submodules, Imgui, Shaders, Compile, Run, cfg, w);
    var sub, shaders := StepResultOf(Submodules, cfg, w).events, StepResultOf(Shaders, cfg, w).events;
    var compile, run := StepResultOf(Compile, cfg, w).events, StepResultOf(Run, cfg, w).events;
    AppendAssoc(shaders, compile, run);
    AppendAssoc(sub, shaders + compile, run);
    AppendAssoc(sub, shaders, compile);
  }

  /** Five steps none of which stops the run complete it, one after another. */
  lemma FiveStepsComplete(a: Step, b: Step, c: Step, d: Step, e: Step, cfg: Args.Config, w: World)
    requires StepResultOf(a, cfg, w).outcome == Continue && StepResultOf(b, cfg, w).outcome == Continue
    requires StepResultOf(c, cfg, w).outcome == Continue && StepResultOf(d, cfg, w).outcome == Continue
    requires StepResultOf(e, cfg, w).outcome == Continue
    ensures RunSteps([a, b, c, d, e], cfg, w) == RunResult(
      StepResultOf(a, cfg, w).events + (StepResultOf(b, cfg, w).events + (StepResultOf(c, cfg, w).events
      + (StepResultOf(d, cfg, w).events + StepResultOf(e, cfg, w).events))),
      Completed)
  {
    ListOfFive(a, b, c, d, e);
    RunStepsCons(e, [], cfg, w);
    assert StepResultOf(e, cfg, w).events + [] == StepResultOf(e, cfg, w).events;
    RunStepsCons(d, [e], cfg, w);
    RunStepsCons(c, [d, e], cfg, w);
    RunStepsCons(b, [c, d, e], cfg, w);
    RunStepsCons(a, [b, c, d, e], cfg, w);
  }

  /** A list of five steps, built up from the back one step at a time. */
  lemma ListOfFive(a: Step, b: Step, c: Step, d: Step, e: Step)
    ensures [d] + [e] == [d, e] && [c] + [d, e] == [c, d, e]
    ensures [b] + [c, d, e] == [b, c, d, e] && [a] + [b, c, d, e] == [a, b, c, d, e]
  {
    assert [d] + [e] == [d, e];
    assert [c] + [d, e] == [c, d, e];
    assert [b] + [c, d, e] == [b, c, d, e];
  }

  /** A step that lets the run continue is followed by the rest of the list. */
  lemma RunStepsCons(s: Step, rest: seq<Step>, cfg: Args.Config, w: World)
    requires StepResultOf(s, cfg, w).outcome == Continue
    ensures RunSteps([s] + rest, cfg, w)
         == RunResult(StepResultOf(s, cfg, w).events + RunSteps(rest, cfg, w).events, RunSteps(rest, cfg, w).termination)
  {
    RunStepsFirst([s] + rest, cfg, w);
    assert ([s] + rest)[1..] == rest;
  }

  // The steps of the scenario one by one: what each does, and that none stops the run.

  lemma SubmodulesSucceed(w: World, cfg: Args.Config)
    requires w.result(Git) == Exited(0)
    ensures StepResultOf(Submodules, cfg, w)
         == StepResult([Exec(Git, ["git", "submodule", "update", "--init", "--recursive"], w.root)], Continue)
  {
  }

  lemma ImguiSkipped(w: World, cfg: Args.Config)
    requires w.imguiLibPresent && !cfg.forceImgui
    ensures StepResultOf(Imgui, cfg, w) == StepResult([], Continue)
  {
  }

  lemma PosixShadersSucceed(w: World, cfg: Args.Config)
    requires !Platform.IsWindows(w.platform)
    requires w.result(Chmod) == Exited(0) && w.result(ShaderCompiler) == Exited(0)
    ensures StepResultOf(Shaders, cfg, w) == StepResult(
      [Exec(Chmod, ["chmod", "+x", "./scripts/compile.sh"], w.root), Exec(ShaderCompiler, ["./scripts/compile.sh"], w.root)],
      Continue)
  {
  }

  lemma PosixReleaseCompileSucceeds(w: World, cfg: Args.Config)
    requires !Platform.IsWindows(w.platform) && w.result(Odin) == Exited(0)
    requires !cfg.debug && cfg.release && !cfg.profile
    ensures StepResultOf(Compile, cfg, w) == StepResult(
      [MakeDirs(w.root + ["bin"]),
       Exec(Odin, ["odin", "build", "src", "-out:bin/vertex_release",
                   "-o:speed", "-no-bounds-check", "-disable-assert", "-show-timings"], w.root)],
      Continue)
  {
    var out := Platform.OutputFile(w.platform, false);
    assert "-out:" + out == "-out:bin/vertex_release";
    assert OdinCommand.Head(out) == ["odin", "build", "src", "-out:bin/vertex_release"];
    var cmd := OdinCommand.BuildCommand(out, false, true, false);
    assert cmd == OdinCommand.Head(out) + (OdinCommand.RELEASE_FLAGS + []) + [OdinCommand.SHOW_TIMINGS];
    assert cmd == ["odin", "build", "src", "-out:bin/vertex_release",
                   "-o:speed", "-no-bounds-check", "-disable-assert", "-show-timings"];
    assert BuildOdinEffect(w, w.root, false, true, false).completion == Normal;
  }

  lemma PosixReleaseRunSucceeds(w: World, cfg: Args.Config)
    requires !Platform.IsWindows(w.platform) && w.result(Binary) == Exited(0) && !cfg.debug
    ensures StepResultOf(Run, cfg, w) == StepResult([Exec(Binary, ["bin/vertex_release"], w.root)], Continue)
  {
    assert Platform.OutputFile(w.platform, false) == "bin/vertex_release";
    assert RunBinaryEffect(w, w.root, "bin/vertex_release").events == [Exec(Binary, ["bin/vertex_release"], w.root)];
  }

  /**
   * `--debug --profile` on a POSIX host: the compile step builds
   * `bin/vertex_debug` with the debug battery and the profiling define.
   */
  lemma DebugProfileCompile(argv: seq<string>, w: World)
    requires Args.DEBUG_FLAG in argv && Args.PROFILE_FLAG in argv && !Platform.IsWindows(w.platform)
    ensures StepResultOf(Compile, Args.ParseArgs(argv).value, w).events[1]
         == Exec(Odin, ["odin", "build", "src", "-out:bin/vertex_debug"] + OdinCommand.DEBUG_FLAGS
                       + ["-define:PROFILE=true", "-show-timings"], w.root)
  {
    var cfg := Args.ParseArgs(argv).value;
    assert cfg.debug && cfg.profile;
    var out := Platform.OutputFile(w.platform, true);
    assert out == "bin/vertex_debug";
    OdinCommand.DebugProfileCommand(out, cfg.release);
    assert "-out:" + out == "-out:bin/vertex_debug";
    assert StepResultOf(Compile, cfg, w).events == BuildOdinEffect(w, w.root, true, cfg.release, true).events;
  }
}
