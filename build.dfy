/**
 * scripts/build.py as the program it is: one process whose working
 * directory and record of effects change call by call. Each method does
 * what its Python function does, step by step, and is proved to leave
 * exactly the effects, directory and ending that the matching function of
 * `Effects` (and, for `main`, of `Pipeline`) describes.
 */
module Build {
  import opened Wrappers
  import opened Paths
  import opened Effects
  import Args
  import Platform
  import OdinCommand
  import opened MainFlow

  /**
   * The running script: the world it asks, the process's working
   * directory, and everything it has done so far.
   */
  class BuildProcess {
    const world: World
    var cwd: Path
    var trace: seq<Event>

    constructor (w: World, start: Path)
      ensures world == w && cwd == start && trace == []
    {
      world := w;
      cwd := start;
      trace := [];
    }

    /**
     * `subprocess.run(argv, check=True)` in the current directory: the
     * exception it raises, if any, and otherwise the status it hands back,
     * which `check=True` guarantees to be 0.
     */
    method RunProcess(tool: Tool, argv: seq<string>) returns (raised: Option<Exception>, returncode: int)
      modifies this
      ensures trace == old(trace) + [Exec(tool, argv, old(cwd))] && cwd == old(cwd)
      ensures raised == Checked(world.result(tool))
      ensures raised.None? ==> returncode == 0
    {
      trace := trace + [Exec(tool, argv, cwd)];
      raised := Checked(world.result(tool));
      returncode := 0;
    }

    /** `os.chdir(rel)` for a path relative to the current directory. */
    method Chdir(rel: seq<string>)
      modifies this
      ensures cwd == Resolve(old(cwd), rel)
      ensures trace == old(trace) + [ChangeDir(cwd)]
    {
      cwd := Resolve(cwd, rel);
      trace := trace + [ChangeDir(cwd)];
    }

    /** `os.chdir(path)` for an absolute path. */
    method ChdirTo(path: Path)
      modifies this
      ensures cwd == path && trace == old(trace) + [ChangeDir(path)]
    {
      cwd := path;
      trace := trace + [ChangeDir(path)];
    }

    /** `os.makedirs(rel, exist_ok=True)`. */
    method MakeDirs(rel: seq<string>)
      modifies this
      ensures cwd == old(cwd) && trace == old(trace) + [Event.MakeDirs(Resolve(old(cwd), rel))]
    {
      trace := trace + [Event.MakeDirs(Resolve(cwd, rel))];
    }

    /** `print_error`: one `[ERROR]` line. */
    method PrintError()
      modifies this
      ensures cwd == old(cwd) && trace == old(trace) + [LogError]
    {
      trace := trace + [LogError];
    }

    /** `compile_shaders`. */
    method CompileShaders() returns (c: Completion)
      modifies this
      ensures var e := CompileShadersEffect(world, old(cwd));
        trace == old(trace) + e.events && cwd == e.cwd && c == e.completion
    {
      var script := Platform.ShaderScript(world.platform);
      if !Platform.IsWindows(world.platform) {
        var raised, _ := RunProcess(Chmod, ["chmod", "+x", script]);
        match raised
        case Some(CalledProcessError(_)) =>
          PrintError();
          return SysExit(1);
        case Some(OSError) =>
          return Raised(OSError);
        case None =>
      }
      var raised, returncode := RunProcess(ShaderCompiler, [script]);
      if raised.Some? {
        return Raised(raised.value);
      }
      if returncode != 0 {
        // `check=True` has already raised for every nonzero status
        assert false;
      }
      return Normal;
    }

    /** `init_submodules`. */
    method InitSubmodules() returns (c: Completion)
      modifies this
      ensures var e := InitSubmodulesEffect(world, old(cwd));
        trace == old(trace) + e.events && cwd == e.cwd && c == e.completion
    {
      var raised, returncode := RunProcess(Git, GIT_ARGV);
      if raised.Some? {
        return Raised(raised.value);
      }
      if returncode != 0 {
        // `check=True` has already raised for every nonzero status
        assert false;
      }
      return Normal;
    }

    /** `build_imgui(force)`; the last `Chdir` is the `finally`, taken on every way out. */
    method BuildImgui(force: bool) returns (c: Completion)
      modifies this
      ensures var e := BuildImguiEffect(world, old(cwd), force);
        trace == old(trace) + e.events && cwd == e.cwd && c == e.completion
    {
      if !force && world.imguiLibPresent {
        return Normal;
      }
      ghost var start := cwd;
      ImguiDirRoundTrip(start);
      Chdir(IMGUI_DIR);
      var raised, _ := RunProcess(ImguiBuild, IMGUI_ARGV);
      ghost var inside := start + IMGUI_DIR;
      assert trace == old(trace) + [ChangeDir(inside), Exec(ImguiBuild, IMGUI_ARGV, inside)];
      match raised {
        case None =>
          c := Normal;
        case Some(CalledProcessError(_)) =>
          PrintError();
          c := SysExit(1);
        case Some(OSError) =>
          c := Raised(OSError);
      }
      Chdir(Up(2));
    }

    /**
     * `build_vma`. A caught `CalledProcessError` returns False where it
     * happened, without going back to the start directory.
     */
    method BuildVma() returns (o: VmaOutcome)
      modifies this
      ensures var e := BuildVmaEffect(world, old(cwd));
        trace == old(trace) + e.events && cwd == e.cwd && o == e.outcome
    {
      if world.vmaLibPresent {
        return Returned(true);
      }
      if !world.vmaSourcePresent {
        PrintError();
        return Returned(false);
      }
      o := TryBuildVma();
    }

    /** The `try` block of `build_vma`, run from the directory it started in. */
    method TryBuildVma() returns (o: VmaOutcome)
      modifies this
      ensures var e := VmaTryEffect(world, old(cwd));
        trace == old(trace) + e.events && cwd == e.cwd && o == e.outcome
    {
      var currentDir := cwd;
      VmaDirsResolve(currentDir);
      MakeDirs(VMA_DIR + ["build"]);
      Chdir(VMA_DIR);
      var raised, returncode := RunProcess(CMake, CMAKE_ARGV);
      ghost var source := currentDir + VMA_DIR;
      ghost var build := source + ["build"];
      ghost var configure := [Event.MakeDirs(build), ChangeDir(source), Exec(CMake, CMAKE_ARGV, source)];
      assert trace == old(trace) + configure;
      if raised.Some? {
        assert VmaTryEffect(world, currentDir) == VmaFailed(configure, source, raised.value);
        o := CatchCalledProcessError(raised.value);
        return;
      }
      Chdir(["build"]);
      raised, returncode := RunProcess(Make, MAKE_ARGV);
      ghost var compile := configure + [ChangeDir(build), Exec(Make, MAKE_ARGV, build)];
      assert trace == old(trace) + compile;
      if raised.Some? {
        assert VmaTryEffect(world, currentDir) == VmaFailed(compile, build, raised.value);
        o := CatchCalledProcessError(raised.value);
        return;
      }
      ChdirTo(currentDir);
      raised, returncode := RunProcess(Copy, CopyArgv(currentDir));
      ghost var copy := compile + [ChangeDir(currentDir), Exec(Copy, CopyArgv(currentDir), currentDir)];
      assert trace == old(trace) + copy;
      if raised.Some? {
        assert VmaTryEffect(world, currentDir) == VmaFailed(copy, currentDir, raised.value);
        o := CatchCalledProcessError(raised.value);
        return;
      }
      assert VmaTryEffect(world, currentDir) == VmaEffect(copy, currentDir, Returned(true));
      return Returned(true);
    }

    /** The `except subprocess.CalledProcessError` clause of `build_vma`. */
    method CatchCalledProcessError(exc: Exception) returns (o: VmaOutcome)
      modifies this
      ensures var e := VmaFailed(old(trace), old(cwd), exc);
        trace == e.events && cwd == e.cwd && o == e.outcome
    {
      if exc.CalledProcessError? {
        PrintError();
        return Returned(false);
      }
      return Escaped(exc);
    }

    /** `build_odin_project`: the command is built up by `extend` as in the script. */
    method BuildOdinProject(debug: bool, release: bool, profile: bool) returns (c: Completion, outputFile: string)
      modifies this
      ensures var e := BuildOdinEffect(world, old(cwd), debug, release, profile);
        trace == old(trace) + e.events && cwd == e.cwd && c == e.completion
      ensures outputFile == Platform.OutputFile(world.platform, debug)
    {
      MakeDirs(["bin"]);
      assert Resolve(old(cwd), ["bin"]) == old(cwd) + ["bin"] by { ResolveNames(old(cwd), ["bin"]); }
      outputFile := Platform.OutputFile(world.platform, debug);
      var buildCmd := ["odin", "build", "src", "-out:" + outputFile];
      if debug {
        buildCmd := buildCmd + OdinCommand.DEBUG_FLAGS;
        if profile {
          buildCmd := buildCmd + [OdinCommand.PROFILE_DEFINE];
        }
      } else if release {
        buildCmd := buildCmd + OdinCommand.RELEASE_FLAGS;
        if profile {
          buildCmd := buildCmd + [OdinCommand.PROFILE_DEFINE];
        }
      }
      buildCmd := buildCmd + [OdinCommand.SHOW_TIMINGS];
      assert buildCmd == OdinCommand.BuildCommand(outputFile, debug, release, profile);
      var raised, returncode := RunProcess(Odin, buildCmd);
      if raised.Some? {
        return Raised(raised.value), outputFile;
      }
      if returncode != 0 {
        // `check=True` has already raised for every nonzero status
        assert false;
      }
      return Normal, outputFile;
    }

    /** `run_binary`: every failure is caught and reported. */
    method RunBinary(binaryPath: string)
      modifies this
      ensures var e := RunBinaryEffect(world, old(cwd), binaryPath);
        trace == old(trace) + e.events && cwd == e.cwd
    {
      var raised, _ := RunProcess(Binary, [binaryPath]);
      if raised.Some? {
        PrintError();
      }
    }

    /**
     * `main`: go to the repository root, read the arguments, and run the
     * steps until one of them ends the process. The result is how the
     * process ends; its effects are those of `Pipeline`.
     */
    method BuildAndRun(argv: seq<string>) returns (t: Termination)
      modifies this
      ensures trace == old(trace) + Pipeline(argv, world).events
      ensures t == Pipeline(argv, world).termination
    {
      ChdirTo(world.root);
      var mode := ReadMode(argv);
      if mode.None? {
        UsageError(argv, world);
        PrintError();
        return Exit(1);
      }
      PipelineOnMode(argv, world, mode.value);
      t := RunPlan(Plan(world.platform), mode.value);
    }

    /**
     * The flag tests at the top of `main`: `--debug` first, then
     * `--release`, with `--profile` read inside either branch; no mode
     * at all is the error branch.
     */
    static method ReadMode(argv: seq<string>) returns (mode: Option<Args.Config>)
      ensures mode == Args.ParseArgs(argv)
    {
      var profileMode := false;
      var releaseMode := false;
      var debugMode;
      if Args.DEBUG_FLAG in argv {
        debugMode := true;
        if Args.PROFILE_FLAG in argv {
          profileMode := true;
        }
      } else if Args.RELEASE_FLAG in argv {
        debugMode := false;
        releaseMode := true;
        if Args.PROFILE_FLAG in argv {
          profileMode := true;
        }
      } else {
        return None;
      }
      return Some(Args.Config(debugMode, releaseMode, profileMode, Args.REBUILD_IMGUI_FLAG in argv));
    }

    /**
     * One step of `main`, run from the repository root: the call the step
     * makes and what its ending means to `main`.
     */
    method RunStep(s: Step, cfg: Args.Config) returns (o: Outcome)
      requires cwd == world.root
      modifies this
      ensures trace == old(trace) + StepResultOf(s, cfg, world).events
      ensures o == StepResultOf(s, cfg, world).outcome
      ensures o == Continue ==> cwd == world.root
    {
      match s
      case Submodules =>
        var c := InitSubmodules();
        o := OutcomeOf(c);
      case Imgui =>
        var c := BuildImgui(cfg.forceImgui);
        o := OutcomeOf(c);
      case Vma =>
        var v := BuildVma();
        o := VmaOutcomeOf(v);
      case Shaders =>
        var c := CompileShaders();
        o := OutcomeOf(c);
      case Compile =>
        var c, _ := BuildOdinProject(cfg.debug, cfg.release, cfg.profile);
        o := OutcomeOf(c);
      case Run =>
        RunBinary(Platform.OutputFile(world.platform, cfg.debug));
        o := Continue;
    }

    /**
     * The rest of `main` once the mode is known: the steps of the plan in
     * order, each ending the process if it fails.
     */
    method RunPlan(steps: seq<Step>, cfg: Args.Config) returns (t: Termination)
      requires cwd == world.root
      modifies this
      ensures trace == old(trace) + RunSteps(steps, cfg, world).events
      ensures t == RunSteps(steps, cfg, world).termination
      decreases |steps|
    {
      if steps == [] {
        return Completed;
      }
      RunStepsFirst(steps, cfg, world);
      var o := RunStep(steps[0], cfg);
      if o.Stop? {
        return o.how;
      }
      ghost var done := trace;
      t := RunPlan(steps[1..], cfg);
      AppendAssoc(old(trace), done[|old(trace)|..], trace[|done|..]);
    }
  }
}
