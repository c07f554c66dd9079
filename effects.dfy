/**
 * What each function of scripts/build.py does to the outside world, as
 * values: the external commands it runs (with the directory they run in),
 * the directory changes and creations it makes, the `[ERROR]` lines it
 * prints, and how it ends. The world's answers (the platform, which files
 * exist, each tool's exit status) are inputs.
 */
module Effects {
  import opened Wrappers
  import opened Paths
  import Platform
  import OdinCommand

  /** The external programs the script runs. */
  datatype Tool = Git | Chmod | ShaderCompiler | ImguiBuild | CMake | Make | Copy | Odin | Binary

  /** What came back from starting a process: its exit status, or the failure to start it. */
  datatype ProcessResult = Exited(code: int) | LaunchError

  /**
   * The exceptions the script can meet: `subprocess.CalledProcessError`
   * (a nonzero status under `check=True`) and the `OSError` raised when a
   * program cannot be started.
   */
  datatype Exception = CalledProcessError(returncode: int) | OSError

  /** One observable effect, in the order the script makes them. */
  datatype Event =
    | Exec(tool: Tool, argv: seq<string>, dir: Path)
    | ChangeDir(to: Path)
    | MakeDirs(path: Path)
    | LogError

  /**
   * Everything the script learns from outside: `sys.platform`, the
   * repository root, which artifacts and sources exist, and the result
   * each tool would give.
   */
  datatype World = World(
    platform: string,
    root: Path,
    imguiLibPresent: bool,
    vmaLibPresent: bool,
    vmaSourcePresent: bool,
    result: Tool -> ProcessResult)

  /** How a Python function call ends: normally, through `sys.exit`, or by an exception. */
  datatype Completion = Normal | SysExit(code: int) | Raised(exc: Exception)

  /** A call's effects, the working directory it leaves and how it ends. */
  datatype Effect = Effect(events: seq<Event>, cwd: Path, completion: Completion)

  /** What `build_vma` does: it returns a flag, or an exception escapes it. */
  datatype VmaOutcome = Returned(ok: bool) | Escaped(exc: Exception)
  datatype VmaEffect = VmaEffect(events: seq<Event>, cwd: Path, outcome: VmaOutcome)

  /** Every program the list runs is one of `tools`. */
  predicate RunsOnly(events: seq<Event>, tools: set<Tool>) {
    forall i :: 0 <= i < |events| && events[i].Exec? ==> events[i].tool in tools
  }

  /** Running only what is allowed holds of a concatenation exactly when it holds of both parts. */
  lemma RunsOnlyAppend(a: seq<Event>, b: seq<Event>, tools: set<Tool>)
    ensures RunsOnly(a + b, tools) <==> RunsOnly(a, tools) && RunsOnly(b, tools)
  {
    if RunsOnly(a, tools) && RunsOnly(b, tools) {
      forall i | 0 <= i < |a + b| && (a + b)[i].Exec?
        ensures (a + b)[i].tool in tools
      {
        if i >= |a| {
          assert b[i - |a|] == (a + b)[i];
        }
      }
    }
    if RunsOnly(a + b, tools) {
      forall i | 0 <= i < |b| && b[i].Exec?
        ensures b[i].tool in tools
      {
        assert (a + b)[|a| + i] == b[i];
      }
      forall i | 0 <= i < |a| && a[i].Exec?
        ensures a[i].tool in tools
      {
        assert (a + b)[i] == a[i];
      }
    }
  }

  lemma AppendAssoc(a: seq<Event>, b: seq<Event>, c: seq<Event>)
    ensures a + (b + c) == (a + b) + c
  {
  }

  /** Allowing more tools keeps a list allowed. */
  lemma RunsOnlyWiden(events: seq<Event>, tools: set<Tool>, more: set<Tool>)
    requires RunsOnly(events, tools) && tools <= more
    ensures RunsOnly(events, more)
  {
  }

  /** `subprocess.run(..., check=True)`: the exception it raises, if any. */
  function Checked(r: ProcessResult): (e: Option<Exception>)
    ensures e.None? <==> r == Exited(0)
    ensures e.Some? && e.value.CalledProcessError? <==> r.Exited? && r.code != 0
    ensures e.Some? && e.value.CalledProcessError? ==> e.value.returncode == r.code
  {
    match r
    case Exited(code) => if code == 0 then None else Some(CalledProcessError(code))
    case LaunchError => Some(OSError)
  }

  /** An exception that nobody catches. */
  function Uncaught(e: Option<Exception>): Completion
  {
    if e.None? then Normal else Raised(e.value)
  }

  // ----- init_submodules -----

  const GIT_ARGV: seq<string> := ["git", "submodule", "update", "--init", "--recursive"]

  /**
   * `init_submodules`: one git call. Its failure escapes as an exception:
   * the `returncode != 0` branch after it cannot be reached under `check=True`.
   */
  function InitSubmodulesEffect(w: World, dir: Path): (e: Effect)
    ensures e.events == [Exec(Git, GIT_ARGV, dir)] && e.cwd == dir
    ensures e.completion == Normal <==> w.result(Git) == Exited(0)
    ensures e.completion != Normal ==> e.completion.Raised?
  {
    Effect([Exec(Git, GIT_ARGV, dir)], dir, Uncaught(Checked(w.result(Git))))
  }

  // ----- build_imgui -----

  /** `external/odin-imgui`, and the vendor build run inside it. */
  const IMGUI_DIR: seq<string> := ["external", "odin-imgui"]
  const IMGUI_ARGV: seq<string> := ["python3", "build.py"]

  /** The artifact exists and no rebuild was asked for. */
  predicate ImguiSkips(w: World, force: bool) {
    !force && w.imguiLibPresent
  }

  /**
   * `build_imgui(force)`: skip when the library exists and no rebuild is
   * forced; otherwise change into the vendor directory, run its build, and
   * on every way out (the `finally`) go back up `../..`. A nonzero status
   * is reported and ends the run through `sys.exit(1)`; a program that
   * cannot be started escapes as `OSError`.
   */
  function BuildImguiEffect(w: World, dir: Path, force: bool): Effect {
    if ImguiSkips(w, force) then Effect([], dir, Normal)
    else
      var inside := dir + IMGUI_DIR;
      var start := [ChangeDir(inside), Exec(ImguiBuild, IMGUI_ARGV, inside)];
      match Checked(w.result(ImguiBuild))
      case None => Effect(start + [ChangeDir(dir)], dir, Normal)
      case Some(CalledProcessError(_)) => Effect(start + [LogError, ChangeDir(dir)], dir, SysExit(1))
      case Some(OSError) => Effect(start + [ChangeDir(dir)], dir, Raised(OSError))
  }

  /**
   * `os.chdir("external/odin-imgui")` followed by `os.chdir("../..")`
   * lands back in the starting directory, whatever it was.
   */
  lemma ImguiDirRoundTrip(dir: Path)
    ensures Resolve(dir, IMGUI_DIR) == dir + IMGUI_DIR
    ensures Resolve(Resolve(dir, IMGUI_DIR), Up(2)) == dir
  {
    assert IMGUI_DIR[0] == "external" && IMGUI_DIR[1] == "odin-imgui";
    ResolveNames(dir, IMGUI_DIR);
    DescendThenAscend(dir, IMGUI_DIR);
  }

  // ----- build_vma -----

  /** `external/odin-vma/VulkanMemoryAllocator` and its `build` directory. */
  const VMA_DIR: seq<string> := ["external", "odin-vma", "VulkanMemoryAllocator"]
  const CMAKE_ARGV: seq<string> := [
    "cmake", "-S", ".", "-B", "build", "-DCMAKE_BUILD_TYPE=Release",
    "-DVMA_STATIC_VULKAN_FUNCTIONS=OFF", "-DVMA_DYNAMIC_VULKAN_FUNCTIONS=OFF"
  ]
  const MAKE_ARGV: seq<string> := ["make"]
  /** The archive the build produces, where make leaves it and where the Odin bindings expect it. */
  const VMA_ARCHIVE := "libVulkanMemoryAllocator.a"
  const VMA_SRC_LIB := "external/odin-vma/VulkanMemoryAllocator/build/src/" + VMA_ARCHIVE
  const VMA_DEST_LIB := "external/odin-vma/external/" + VMA_ARCHIVE

  /** `os.makedirs` and `os.chdir` on the VMA paths descend by plain names. */
  lemma VmaDirsResolve(dir: Path)
    ensures Resolve(dir, VMA_DIR) == dir + VMA_DIR
    ensures Resolve(dir + VMA_DIR, ["build"]) == dir + VMA_DIR + ["build"]
    ensures Resolve(dir, VMA_DIR + ["build"]) == dir + VMA_DIR + ["build"]
  {
    assert VMA_DIR[0] == "external" && VMA_DIR[1] == "odin-vma" && VMA_DIR[2] == "VulkanMemoryAllocator";
    ResolveNames(dir, VMA_DIR);
    ResolveNames(dir + VMA_DIR, ["build"]);
    ResolveNames(dir, VMA_DIR + ["build"]);
    assert dir + (VMA_DIR + ["build"]) == dir + VMA_DIR + ["build"];
  }

  /** The `cp` of the archive, named relative to the source and absolutely at the target. */
  function CopyArgv(dir: Path): seq<string> {
    ["cp", VMA_SRC_LIB, Join(PathString(dir), VMA_DEST_LIB)]
  }

  /**
   * The copy reads the archive relative to the start directory and writes
   * it under the start directory's absolute spelling (`os.path.join` of
   * `os.getcwd()` and the relative target).
   */
  lemma CopyTarget(dir: Path)
    ensures var r := CopyArgv(dir);
      && |r| == 3 && r[0] == "cp" && r[1] == VMA_SRC_LIB
      && (r[2] == PathString(dir) + VMA_DEST_LIB || r[2] == PathString(dir) + "/" + VMA_DEST_LIB)
    ensures IsNamePath(dir) ==>
      CopyArgv(dir)[2] == (if dir == [] then "/" else PathString(dir) + "/") + VMA_DEST_LIB
  {
    assert VMA_DEST_LIB[0] == 'e';
    if IsNamePath(dir) && dir != [] {
      var last := dir[|dir| - 1];
      assert IsName(last);
      var s := PathString(dir);
      assert s == Components(dir[..|dir| - 1]) + "/" + last;
      assert s[|s| - 1] == last[|last| - 1];
      assert last[|last| - 1] in last;
    }
  }

  /** The result of the first of cmake, make and cp that does not exit with 0, if any. */
  function VmaFirstFailure(w: World): (r: Option<ProcessResult>)
    ensures r.None? <==> VmaToolsSucceed(w)
  {
    if w.result(CMake) != Exited(0) then Some(w.result(CMake))
    else if w.result(Make) != Exited(0) then Some(w.result(Make))
    else if w.result(Copy) != Exited(0) then Some(w.result(Copy))
    else None
  }

  /** The three sub-steps all succeed. */
  predicate VmaToolsSucceed(w: World) {
    w.result(CMake) == Exited(0) && w.result(Make) == Exited(0) && w.result(Copy) == Exited(0)
  }

  /**
   * `build_vma`. With the archive present it returns True at once; with the
   * source tree missing it reports and returns False before creating
   * anything; otherwise it creates `build`, runs cmake in the source tree,
   * make in `build`, returns to the start directory and copies the archive.
   * A nonzero status of any of the three is caught and gives False, with
   * the working directory left wherever that sub-step ran; a program that
   * cannot be started is not caught.
   */
  function BuildVmaEffect(w: World, dir: Path): VmaEffect {
    if w.vmaLibPresent then VmaEffect([], dir, Returned(true))
    else if !w.vmaSourcePresent then VmaEffect([LogError], dir, Returned(false))
    else VmaTryEffect(w, dir)
  }

  /** The `try` block of `build_vma`, with its `except` clause. */
  function VmaTryEffect(w: World, dir: Path): VmaEffect {
    var source := dir + VMA_DIR;
    var build := source + ["build"];
    var configure := [MakeDirs(build), ChangeDir(source), Exec(CMake, CMAKE_ARGV, source)];
    match Checked(w.result(CMake))
    case Some(exc) => VmaFailed(configure, source, exc)
    case None =>
      var compile := configure + [ChangeDir(build), Exec(Make, MAKE_ARGV, build)];
      match Checked(w.result(Make))
      case Some(exc) => VmaFailed(compile, build, exc)
      case None =>
        var copy := compile + [ChangeDir(dir), Exec(Copy, CopyArgv(dir), dir)];
        match Checked(w.result(Copy))
        case Some(exc) => VmaFailed(copy, dir, exc)
        case None => VmaEffect(copy, dir, Returned(true))
  }

  /**
   * The `except subprocess.CalledProcessError` of `build_vma`: a nonzero
   * status is reported and gives False; any other exception passes through.
   */
  function VmaFailed(events: seq<Event>, cwd: Path, exc: Exception): VmaEffect {
    if exc.CalledProcessError? then VmaEffect(events + [LogError], cwd, Returned(false))
    else VmaEffect(events, cwd, Escaped(exc))
  }

  // ----- compile_shaders -----

  /**
   * `compile_shaders`. On POSIX the script is first made executable; a
   * nonzero chmod status is reported and ends the run with `sys.exit(1)`.
   * The script itself runs through the shell, and its failure escapes as
   * an exception (the `returncode != 0` branch cannot be reached).
   */
  function CompileShadersEffect(w: World, dir: Path): (e: Effect)
    ensures e.cwd == dir
  {
    var script := Platform.ShaderScript(w.platform);
    var run := Exec(ShaderCompiler, [script], dir);
    if Platform.IsWindows(w.platform) then
      Effect([run], dir, Uncaught(Checked(w.result(ShaderCompiler))))
    else
      var chmod := Exec(Chmod, ["chmod", "+x", script], dir);
      match Checked(w.result(Chmod))
      case Some(CalledProcessError(_)) => Effect([chmod, LogError], dir, SysExit(1))
      case Some(OSError) => Effect([chmod], dir, Raised(OSError))
      case None => Effect([chmod, run], dir, Uncaught(Checked(w.result(ShaderCompiler))))
  }

  // ----- build_odin_project -----

  /**
   * `build_odin_project`: create `bin`, run the compiler on the command
   * for this platform and mode, and hand back the binary's path. The
   * compiler's failure escapes as an exception.
   */
  function BuildOdinEffect(w: World, dir: Path, debug: bool, release: bool, profile: bool): (e: Effect)
    ensures e.cwd == dir
    ensures e.events == [MakeDirs(dir + ["bin"]),
                         Exec(Odin, OdinCommand.BuildCommand(Platform.OutputFile(w.platform, debug), debug, release, profile), dir)]
    ensures e.completion == Normal <==> w.result(Odin) == Exited(0)
    ensures e.completion != Normal ==> e.completion.Raised?
  {
    var output := Platform.OutputFile(w.platform, debug);
    var cmd := OdinCommand.BuildCommand(output, debug, release, profile);
    Effect([MakeDirs(Resolve(dir, ["bin"])), Exec(Odin, cmd, dir)], dir, Uncaught(Checked(w.result(Odin))))
  }

  // ----- run_binary -----

  /**
   * `run_binary(path)`: run the binary; a nonzero status and a failure to
   * start are both caught and reported, and the call ends normally.
   */
  function RunBinaryEffect(w: World, dir: Path, path: string): (e: Effect)
    ensures e.completion == Normal && e.cwd == dir
    ensures |e.events| > 0 && e.events[0] == Exec(Binary, [path], dir) && RunsOnly(e.events, {Binary})
    ensures LogError in e.events <==> w.result(Binary) != Exited(0)
  {
    var run := Exec(Binary, [path], dir);
    Effect(if w.result(Binary) == Exited(0) then [run] else [run, LogError], dir, Normal)
  }

  // ----- how each call ends -----

  /**
   * `build_imgui` runs only the vendor build and always ends back where it
   * started. It completes when skipped or when the build exits with 0; a
   * nonzero status is reported and becomes `sys.exit(1)`; only a build
   * that cannot be started raises, and then with `OSError`.
   */
  lemma BuildImguiEnds(w: World, dir: Path, force: bool)
    ensures var e := BuildImguiEffect(w, dir, force);
      && e.cwd == dir
      && RunsOnly(e.events, {ImguiBuild})
      && (e.completion == Normal <==> ImguiSkips(w, force) || w.result(ImguiBuild) == Exited(0))
      && (e.completion.SysExit? <==>
            !ImguiSkips(w, force) && w.result(ImguiBuild).Exited? && w.result(ImguiBuild).code != 0)
      && (e.completion.SysExit? ==> e.completion.code == 1)
      && (e.completion.Raised? ==> e.completion.exc == OSError)
      && (LogError in e.events <==> e.completion.SysExit?)
  {
  }

  /** `build_vma` runs only cmake, make and cp. */
  lemma BuildVmaRunsOnly(w: World, dir: Path)
    ensures RunsOnly(BuildVmaEffect(w, dir).events, {CMake, Make, Copy})
  {
    var e := BuildVmaEffect(w, dir).events;
    forall i | 0 <= i < |e| && e[i].Exec?
      ensures e[i].tool in {CMake, Make, Copy}
    {
    }
  }

  /**
   * `build_vma` returns True exactly when the archive is already there or
   * the source is there and all three tools succeed, and then it is back in
   * the start directory. It returns False exactly when it reports an error.
   */
  lemma BuildVmaReturns(w: World, dir: Path)
    ensures var e := BuildVmaEffect(w, dir);
      && (e.outcome == Returned(true) <==> w.vmaLibPresent || (w.vmaSourcePresent && VmaToolsSucceed(w)))
      && (e.outcome == Returned(true) ==> e.cwd == dir)
      && (e.outcome == Returned(false) <==> LogError in e.events)
  {
  }

  /**
   * An exception escapes `build_vma` exactly when the first of its tools
   * that does not succeed could not be started, and it is `OSError`.
   */
  lemma BuildVmaEscapes(w: World, dir: Path)
    ensures var e := BuildVmaEffect(w, dir);
      && (e.outcome.Escaped? <==>
            !w.vmaLibPresent && w.vmaSourcePresent && VmaFirstFailure(w) == Some(LaunchError))
      && (e.outcome.Escaped? ==> e.outcome.exc == OSError)
  {
  }

  /**
   * `compile_shaders` runs only chmod and the shader script. It completes
   * when the chmod (POSIX only) and the script both exit with 0; it ends
   * through `sys.exit(1)`, with an error reported, exactly when chmod
   * exits nonzero.
   */
  lemma CompileShadersEnds(w: World, dir: Path)
    ensures var e := CompileShadersEffect(w, dir);
      && e.cwd == dir
      && RunsOnly(e.events, {Chmod, ShaderCompiler})
      && (e.completion == Normal <==>
            (Platform.IsWindows(w.platform) || w.result(Chmod) == Exited(0)) && w.result(ShaderCompiler) == Exited(0))
      && (e.completion.SysExit? <==>
            !Platform.IsWindows(w.platform) && w.result(Chmod).Exited? && w.result(Chmod).code != 0)
      && (e.completion.SysExit? ==> e.completion.code == 1)
      && (LogError in e.events <==> e.completion.SysExit?)
  {
  }

  // ----- properties of the vendor builders -----

  /** An existing ImGui library and no forced rebuild: no program, no directory change, nothing at all. */
  lemma ImguiSkipDoesNothing(w: World, dir: Path)
    requires w.imguiLibPresent
    ensures BuildImguiEffect(w, dir, false) == Effect([], dir, Normal)
  {
  }

  /**
   * When the ImGui build is not skipped (always so when forced) it goes
   * into the vendor directory, runs the vendor build there, and its last
   * act is to come back to where it started.
   */
  lemma ImguiBuildRuns(w: World, dir: Path, force: bool)
    requires force || !w.imguiLibPresent
    ensures var e := BuildImguiEffect(w, dir, force);
      && |e.events| >= 3
      && e.events[0] == ChangeDir(dir + IMGUI_DIR)
      && e.events[1] == Exec(ImguiBuild, IMGUI_ARGV, dir + IMGUI_DIR)
      && e.events[|e.events| - 1] == ChangeDir(dir)
  {
  }

  /** An archive already in place: success with no program run and no directory made. */
  lemma VmaSkipsWhenBuilt(w: World, dir: Path)
    requires w.vmaLibPresent
    ensures BuildVmaEffect(w, dir) == VmaEffect([], dir, Returned(true))
  {
  }

  /** A missing source tree: False, reported, before any directory is made or program run. */
  lemma VmaNeedsSource(w: World, dir: Path)
    requires !w.vmaLibPresent && !w.vmaSourcePresent
    ensures BuildVmaEffect(w, dir) == VmaEffect([LogError], dir, Returned(false))
  {
  }

  /**
   * The build proper: make the build directory, configure in the source
   * tree, and only after a successful configure compile in `build`, and
   * only after a successful compile copy the archive from the start
   * directory; a step that fails is the last program run.
   */
  lemma VmaBuildSequence(w: World, dir: Path)
    requires !w.vmaLibPresent && w.vmaSourcePresent
    ensures var e := BuildVmaEffect(w, dir).events;
      && |e| >= 3
      && e[..3] == [MakeDirs(dir + VMA_DIR + ["build"]), ChangeDir(dir + VMA_DIR), Exec(CMake, CMAKE_ARGV, dir + VMA_DIR)]
      && (w.result(CMake) != Exited(0) ==> RunsOnly(e, {CMake}))
      && (w.result(CMake) == Exited(0) ==>
            && |e| >= 5
            && e[3..5] == [ChangeDir(dir + VMA_DIR + ["build"]), Exec(Make, MAKE_ARGV, dir + VMA_DIR + ["build"])])
      && (w.result(CMake) == Exited(0) && w.result(Make) != Exited(0) ==> RunsOnly(e, {CMake, Make}))
      && (w.result(CMake) == Exited(0) && w.result(Make) == Exited(0) ==>
            && |e| >= 7
            && e[5..7] == [ChangeDir(dir), Exec(Copy, CopyArgv(dir), dir)])
  {
    VmaConfigureFirst(w, dir);
    if w.result(CMake) == Exited(0) {
      VmaCompileSecond(w, dir);
      if w.result(Make) == Exited(0) {
        VmaCopyThird(w, dir);
      }
    }
  }

  /** The build directory, then the configure in the source tree; a failed configure ends the program runs. */
  lemma VmaConfigureFirst(w: World, dir: Path)
    requires !w.vmaLibPresent && w.vmaSourcePresent
    ensures var e := BuildVmaEffect(w, dir).events;
      && |e| >= 3
      && e[..3] == [MakeDirs(dir + VMA_DIR + ["build"]), ChangeDir(dir + VMA_DIR), Exec(CMake, CMAKE_ARGV, dir + VMA_DIR)]
      && (w.result(CMake) != Exited(0) ==> RunsOnly(e, {CMake}))
  {
    assert BuildVmaEffect(w, dir) == VmaTryEffect(w, dir);
  }

  /** After a good configure, the compile in `build`; a failed compile ends the program runs. */
  lemma VmaCompileSecond(w: World, dir: Path)
    requires !w.vmaLibPresent && w.vmaSourcePresent && w.result(CMake) == Exited(0)
    ensures var e := BuildVmaEffect(w, dir).events;
      && |e| >= 5
      && e[3..5] == [ChangeDir(dir + VMA_DIR + ["build"]), Exec(Make, MAKE_ARGV, dir + VMA_DIR + ["build"])]
      && (w.result(Make) != Exited(0) ==> RunsOnly(e, {CMake, Make}))
  {
    assert BuildVmaEffect(w, dir) == VmaTryEffect(w, dir);
  }

  /** After a good compile, back to the start directory and the copy from there. */
  lemma VmaCopyThird(w: World, dir: Path)
    requires !w.vmaLibPresent && w.vmaSourcePresent && w.result(CMake) == Exited(0) && w.result(Make) == Exited(0)
    ensures var e := BuildVmaEffect(w, dir).events;
      |e| >= 7 && e[5..7] == [ChangeDir(dir), Exec(Copy, CopyArgv(dir), dir)]
  {
    assert BuildVmaEffect(w, dir) == VmaTryEffect(w, dir);
    var source := dir + VMA_DIR;
    var build := source + ["build"];
    var copy := [MakeDirs(build), ChangeDir(source), Exec(CMake, CMAKE_ARGV, source),
                 ChangeDir(build), Exec(Make, MAKE_ARGV, build), ChangeDir(dir), Exec(Copy, CopyArgv(dir), dir)];
    var e := BuildVmaEffect(w, dir).events;
    var r := Checked(w.result(Copy));
    if r.Some? {
      assert VmaTryEffect(w, dir) == VmaFailed(copy, dir, r.value);
    } else {
      assert e == copy;
    }
  }

  /** A nonzero status from cmake, make or cp is caught: False, with an error reported. */
  lemma VmaStatusFailureIsFalse(w: World, dir: Path)
    requires !w.vmaLibPresent && w.vmaSourcePresent
    requires VmaFirstFailure(w).Some? && VmaFirstFailure(w).value.Exited?
    ensures BuildVmaEffect(w, dir).outcome == Returned(false)
    ensures LogError in BuildVmaEffect(w, dir).events
  {
  }

  /** On POSIX the script is made executable first, and a failed chmod runs nothing more. */
  lemma ShadersChmodFirst(w: World, dir: Path)
    requires !Platform.IsWindows(w.platform)
    ensures var e := CompileShadersEffect(w, dir).events;
      && |e| >= 1
      && e[0] == Exec(Chmod, ["chmod", "+x", "./scripts/compile.sh"], dir)
      && (w.result(Chmod) != Exited(0) ==> RunsOnly(e, {Chmod}))
      && (w.result(Chmod) == Exited(0) ==> e == [e[0], Exec(ShaderCompiler, ["./scripts/compile.sh"], dir)])
  {
  }

  /** On Windows the batch script runs directly, with no chmod. */
  lemma ShadersOnWindows(w: World, dir: Path)
    requires Platform.IsWindows(w.platform)
    ensures CompileShadersEffect(w, dir).events == [Exec(ShaderCompiler, ["scripts\\compile.bat"], dir)]
  {
  }
}
