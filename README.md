# vertex build orchestration, modelled in Dafny

`scripts/build.py` of the vertex renderer is a build driver. It runs from the repository root.
First it reads the build mode from its arguments. Then it runs a fixed sequence of external tools:

1. the git submodule update;
2. the vendored ImGui build;
3. on Linux only, the vendored Vulkan Memory Allocator (VMA) build;
4. the shader compile script;
5. the Odin compiler, with a mode-dependent flag set;
6. finally, the built binary.

A failing build step ends the process with status 1. A failing binary is only reported.

This project models that decision logic and proves properties of it.

- `Args`: the `--debug` / `--release` / `--profile` / `--rebuild-imgui` tests at the top of `main`.
- `Platform`: the `sys.platform` tests, the shader script name and the binary's path.
- `OdinCommand`: the argument vector handed to the Odin compiler.
- `Paths`: the process working directory as a list of components, and `os.chdir` on relative paths.
- `Effects`: each function of the script as a value over an explicit `World`. The world holds the platform, the root, which files exist and each tool's result. Each function's value is the commands it runs (with their directory), the directories it changes to and creates, the `[ERROR]` lines it prints, the directory it leaves, and how it ends: normally, through `sys.exit`, or by an exception.
- `MainFlow`: `main` as a state machine over the planned steps. Each step lets the run continue or stops it. The process ends completed, by `sys.exit(code)`, or by an uncaught exception (exit status 1).
- `Build`: the script as the imperative program it is.
  - A `BuildProcess` object has a mutable working directory and a trace of effects.
  - Each method follows one Python function, with three departures:
    - `main` is split into `ReadMode` (the flag tests) and the recursive `RunPlan`/`RunStep` over the list of planned steps;
    - the `try` block of `build_vma` is its own method `TryBuildVma`, which takes `os.getcwd()` as it starts, so this happens after the two existence checks instead of between them (nothing in between changes the directory);
    - the run step recomputes the binary path, which is the same path `build_odin_project` returns (`Build.BuildProcess.BuildOdinProject` proves it is `Platform.OutputFile`).
  - Each method is proved to produce exactly what the matching function of `Effects` / `MainFlow` describes. `BuildProcess.BuildAndRun` is `main`.

`subprocess.run(..., check=True)` is modelled as the Python library behaves:
- a nonzero status raises `CalledProcessError`;
- a program that cannot be started raises `OSError`;
- an exception nobody catches ends the process with status 1.

It follows that the `returncode != 0` branches after `check=True` calls can never be taken (lines 33-35, 45-49 and 194-196). In the methods they appear as branches that are proved dead.

In two places the code behaves differently from what its structure suggests was intended. The unreachable `returncode != 0` branches, for instance, were evidently written to report failures with their exit code. The model follows the code:

- Failures of the submodule update, the shader script and the Odin compiler are not caught by the script. No `[ERROR]` line with an exit code is printed for them. The exception escapes `main` and the process exits with status 1 (`Crash` in the model).
- `build_vma` does not go back to its start directory when cmake or make fails: its `except` clause returns `False` from wherever the failed tool ran (`Build.BuildProcess.TryBuildVma`, `Effects.VmaTryEffect`). This is harmless only because `main` then exits at once. A program that cannot be started is not caught by `build_vma` at all.
- By contrast, `build_imgui` does restore the directory on every way out, including `sys.exit(1)` and an escaping `OSError`, through its `finally`.

## Model

| member | source | states |
|---|---|---|
| Args.ParseArgs | scripts/build.py:221-239 | no mode exactly when neither `--debug` nor `--release` occurs; debug exactly when `--debug` occurs; release exactly when `--release` occurs without `--debug`; never both; profile and forced ImGui rebuild exactly when their flags occur |
| Args.ParseIgnoresUnrecognised | scripts/build.py:224-242 | dropping every argument other than the four flags gives the same configuration |
| Args.ParseDependsOnlyOnPresence | scripts/build.py:224-242 | two argument lists with the same flags present give the same configuration, whatever the order and repetition |
| Args.DebugTakesPrecedence | scripts/build.py:224-236 | with both `--debug` and `--release` the build is a debug build, not a release build |
| Platform.LinuxIsNotWindows | scripts/build.py:247-249 | the platform that builds VMA is never a Windows platform |
| Platform.ShaderScript | scripts/build.py:19-22 | `scripts\compile.bat` on Windows, `./scripts/compile.sh` elsewhere, by separator and extension |
| Platform.OutputFile | scripts/build.py:150-153 | the binary is `bin`, the platform separator, `vertex_` and the mode name, with `.exe` on Windows only |
| Platform.OutputFilesDiffer | scripts/build.py:150-153 | the debug and release binaries never have the same path |
| OdinCommand.BuildCommand | scripts/build.py:155-192 | the command starts with `odin build src -out:<file>`, ends with `-show-timings`, and its length is the head, the battery of the chosen mode, the define when profiling inside a mode, and the timings flag |
| OdinCommand.FlagsAreNotHeadTokens | scripts/build.py:155-192 | no flag the script adds can equal one of the head tokens |
| OdinCommand.DebugCommand | scripts/build.py:157-171 | a debug command has the whole debug battery (debug info, the eight vet flags, warnings as errors) right after the head and none of the release flags, even when `release` is also set |
| OdinCommand.ReleaseCommand | scripts/build.py:180-181 | a release command has exactly the release battery right after the head and none of the debug flags |
| OdinCommand.NoModeCommand | scripts/build.py:155-192 | with neither mode the command is the head and `-show-timings` only; `profile` adds nothing |
| OdinCommand.ProfileDefineCount | scripts/build.py:173-188 | `-define:PROFILE=true` occurs once when profiling in a mode and not at all otherwise |
| OdinCommand.ProfileDefinePosition | scripts/build.py:173-192 | the define sits right after the mode battery and right before `-show-timings` |
| OdinCommand.DebugProfileCommand | scripts/build.py:155-192 | a profiled debug command is the head, the debug battery, the define and the timings flag, token by token |
| Paths.Up | scripts/build.py:78 | `../..` and its kin: `n` components, all `..` |
| Paths.Enter | scripts/build.py:62 | one component of a relative path: a plain name is appended, `..` drops the last component (staying at the root), `.` stays; stated by `Paths.ResolveNames` and `Paths.ResolveUp` |
| Paths.Resolve | scripts/build.py:101-115 | the directory a relative path names from the current one: applying its components one by one; stated by `Paths.ResolveNames`, `Paths.ResolveUp` and `Paths.DescendThenAscend` |
| Paths.ResolveNames | scripts/build.py:62 | changing into a relative path of plain names appends them to the directory |
| Paths.DescendThenAscend | scripts/build.py:62-78 | going down by plain names and then as many `..` returns to the start, wherever it was |
| Paths.PathString | scripts/build.py:88 | `os.getcwd()` spells an absolute path starting with `/`; which directory it names is stated by `Paths.PathStringInjective` |
| Paths.PathStringInjective | scripts/build.py:88 | two directories of plain names with the same `os.getcwd()` spelling are the same directory |
| Paths.Join | scripts/build.py:126-128 | `os.path.join` keeps an absolute second part as it is; otherwise the first part is kept as the prefix and the second follows it; the two are concatenated exactly when the first part is empty or ends with `/`, and separated by one `/` otherwise |
| Platform.IsWindows | scripts/build.py:19 | `sys.platform.startswith("win")`; its consequences are stated by `Platform.ShaderScript`, `Platform.OutputFile` and `Platform.LinuxIsNotWindows` |
| Platform.IsLinux | scripts/build.py:247 | `sys.platform == "linux"`; the VMA step is planned exactly then (`MainFlow.Plan`) and never on Windows (`MainFlow.VmaNeverOnWindows`) |
| Effects.Uncaught | scripts/build.py:42-44 | an exception nobody catches in the called function; stated by `Effects.InitSubmodulesEffect`, `Effects.BuildOdinEffect` and `Effects.CompileShadersEnds`, whose ensures give how each such call ends |
| Effects.Checked | scripts/build.py:42-44 | `check=True` raises nothing exactly on status 0, `CalledProcessError` with the status exactly on a nonzero status, and otherwise `OSError` |
| Effects.InitSubmodulesEffect | scripts/build.py:39-51 | one git submodule update in the current directory; the call completes exactly when git exits with 0 and otherwise raises |
| Effects.ImguiDirRoundTrip | scripts/build.py:62-78 | `os.chdir("external/odin-imgui")` then `os.chdir("../..")` lands back in the start directory |
| Effects.VmaDirsResolve | scripts/build.py:89-115 | the VMA source and build paths resolve against the start directory by appending their names |
| Effects.CompileShadersEffect | scripts/build.py:17-36 | compiling the shaders leaves the working directory where it was |
| Effects.BuildOdinEffect | scripts/build.py:140-200 | `bin` is created then the compiler runs on the command for this platform and mode; the call completes exactly when the compiler exits with 0 and otherwise raises |
| Effects.RunBinaryEffect | scripts/build.py:203-214 | the binary runs first, nothing else runs, the call always completes in the same directory, and an `[ERROR]` line is printed exactly when the binary does not exit with 0 |
| Effects.BuildImguiEffect | scripts/build.py:54-78 | what `build_imgui` does; stated by `Effects.BuildImguiEnds`, `Effects.ImguiSkipDoesNothing`, `Effects.ImguiBuildRuns` and `Effects.ImguiDirRoundTrip` |
| Effects.BuildImguiEnds | scripts/build.py:54-78 | `build_imgui` runs only the vendor build and ends in its start directory; it completes exactly when skipped or the build exits with 0; it ends by `sys.exit(1)` exactly on a nonzero status; it raises only `OSError`; it prints an error exactly when it exits |
| Effects.ImguiSkipDoesNothing | scripts/build.py:55-58 | with the library present and no rebuild asked for, nothing at all happens |
| Effects.ImguiBuildRuns | scripts/build.py:60-78 | when not skipped (always when forced) it enters the vendor directory, runs `python3 build.py` there, and its last act is to return to the start directory |
| Effects.BuildVmaEffect | scripts/build.py:81-97 | what `build_vma` does; stated by `Effects.BuildVmaReturns`, `Effects.BuildVmaEscapes`, `Effects.BuildVmaRunsOnly`, `Effects.VmaSkipsWhenBuilt`, `Effects.VmaNeedsSource`, `Effects.VmaBuildSequence` and `Effects.VmaStatusFailureIsFalse` |
| Effects.VmaTryEffect | scripts/build.py:98-133 | the `try` block of `build_vma`; stated by `Effects.VmaBuildSequence` and its three parts, `Effects.BuildVmaReturns` and `Effects.BuildVmaEscapes` |
| Effects.VmaFailed | scripts/build.py:134-137 | the `except subprocess.CalledProcessError` clause; stated by `Effects.VmaStatusFailureIsFalse` and `Effects.BuildVmaEscapes` |
| Effects.CopyArgv | scripts/build.py:125-129 | the `cp` command; stated by `Effects.CopyTarget` |
| Effects.CopyTarget | scripts/build.py:125-129 | `cp`, the archive relative to the start directory, and the target as the start directory's absolute spelling joined with `external/odin-vma/external/libVulkanMemoryAllocator.a`; for a directory of ordinary names the target is exactly that spelling, one `/` (none after the root `/`) and the relative target |
| Effects.BuildVmaRunsOnly | scripts/build.py:81-137 | `build_vma` runs only cmake, make and cp |
| Effects.BuildVmaReturns | scripts/build.py:81-137 | `build_vma` returns True exactly when the archive exists or the source exists and all three tools succeed, and then it is back in its start directory; it returns False exactly when it prints an error |
| Effects.BuildVmaEscapes | scripts/build.py:98-137 | an exception escapes `build_vma` exactly when the first tool that does not succeed could not be started, and it is `OSError` |
| Effects.VmaSkipsWhenBuilt | scripts/build.py:82-84 | an existing archive gives True with no directory made, no directory change and no program run |
| Effects.VmaNeedsSource | scripts/build.py:92-96 | a missing source tree gives False after one error line and nothing else |
| Effects.VmaBuildSequence | scripts/build.py:98-129 | make the build directory, enter the source tree and configure there; only after a good configure enter `build` and compile; only after a good compile return to the start and copy; a failed tool is the last one run |
| Effects.VmaConfigureFirst | scripts/build.py:99-113 | the build directory is created, the source tree entered and cmake run there first; after a failed cmake no other tool runs |
| Effects.VmaCompileSecond | scripts/build.py:115-121 | after a good cmake, `build` is entered and make runs there; after a failed make neither cp nor anything else runs |
| Effects.VmaCopyThird | scripts/build.py:123-129 | after a good make, the start directory is entered again and cp runs from there |
| Effects.VmaStatusFailureIsFalse | scripts/build.py:134-137 | a nonzero status from cmake, make or cp is caught: False, with an error printed |
| Effects.CompileShadersEnds | scripts/build.py:17-36 | only chmod and the shader script run; the call completes exactly when chmod (POSIX only) and the script exit with 0; it exits with `sys.exit(1)` and an error line exactly when chmod exits nonzero |
| Effects.ShadersChmodFirst | scripts/build.py:19-32 | on POSIX `chmod +x ./scripts/compile.sh` runs first; after a failed chmod nothing more runs; after a good one exactly the script runs |
| Effects.ShadersOnWindows | scripts/build.py:19-32 | on Windows only `scripts\compile.bat` runs, with no chmod |
| MainFlow.Plan | scripts/build.py:241-256 | submodules and ImGui first, the VMA step exactly on Linux, then shaders, compile and run last, each step once |
| MainFlow.VmaNeverOnWindows | scripts/build.py:247-249 | the VMA step is never planned on a Windows host, so its POSIX paths are the only ones used |
| MainFlow.ExitStatus | scripts/build.py:217-258 | the process's exit status is 0 exactly when the run completes or exits with 0, and 1 after an uncaught exception |
| MainFlow.OutcomeOf | scripts/build.py:241-256 | a call lets `main` go on exactly when it ends normally |
| MainFlow.VmaOutcomeOf | scripts/build.py:247-249 | `if not build_vma(): sys.exit(1)` goes on exactly when `build_vma` returns True |
| MainFlow.StepResultOf | scripts/build.py:241-256 | one step of `main` from the root; stated by `MainFlow.StepFacts`, `MainFlow.RebuildFlagForcesImgui`, `MainFlow.DebugProfileCompile` and the `Effects` lemmas of each call |
| MainFlow.RunSteps | scripts/build.py:241-258 | the state machine over the plan; stated by `MainFlow.StopsAtFirstStop`, `MainFlow.CompletesWhenAllContinue` and `MainFlow.RunStepsStatus` |
| MainFlow.Pipeline | scripts/build.py:217-258 | `main`; stated by `MainFlow.PipelineOnMode`, `MainFlow.UsageError`, `MainFlow.FatalStepEndsRun`, `MainFlow.SuccessIffNoStepStops`, `MainFlow.BinaryFailureIsReported`, `MainFlow.BinaryResultIrrelevant` and `MainFlow.ReleaseOnMacScenario` |
| MainFlow.StepFacts | scripts/build.py:241-256 | every step runs only its own programs; a step that stops the run gives exit status 1; running the binary never stops it |
| MainFlow.PipelineOnMode | scripts/build.py:217-256 | with a mode chosen, `main` changes to the root and then runs the plan |
| MainFlow.StopsAtFirstStop | scripts/build.py:241-256 | a run stops at the first step that stops it: everything up to and including that step happened, nothing after it, and the run ends the way that step did |
| MainFlow.CompletesWhenAllContinue | scripts/build.py:241-258 | when no step stops the run, it completes having done everything each step does, in order |
| MainFlow.RunStepsStatus | scripts/build.py:241-258 | a run completes exactly when no step stops it, and otherwise ends with status 1 |
| MainFlow.UsageError | scripts/build.py:237-239 | neither `--debug` nor `--release`: one error line, status 1, no program run |
| MainFlow.FatalStepEndsRun | scripts/build.py:241-256 | a step that stops the run gives exit status 1, and no program of any later step runs |
| MainFlow.SuccessIffNoStepStops | scripts/build.py:217-258 | the exit status is 0 exactly when a mode is chosen and no step stops the run; it is always 0 or 1 |
| MainFlow.BinaryFailureIsReported | scripts/build.py:203-214 | a failing or unstartable binary is reported by an error line, which is the last effect of the run, and the run still exits with 0 |
| MainFlow.BinaryResultIrrelevant | scripts/build.py:203-214 | two worlds that differ only in the binary's result end the run the same way |
| MainFlow.RebuildFlagForcesImgui | scripts/build.py:242-245 | with `--rebuild-imgui` the ImGui step runs the vendor build even when the library exists |
| MainFlow.ReleaseOnMacScenario | scripts/build.py:217-258 | `--release` on macOS with ImGui built and every tool succeeding: the exact sequence of effects (no vendor build, no VMA, chmod before the shader script, the release command into `bin/vertex_release`, then the binary) and exit status 0 |
| MainFlow.SubmodulesSucceed | scripts/build.py:39-51 | a good git run: one git call, and the run goes on |
| MainFlow.ImguiSkipped | scripts/build.py:55-58 | an existing library and no forced rebuild: nothing happens, and the run goes on |
| MainFlow.PosixShadersSucceed | scripts/build.py:17-36 | on POSIX with chmod and the script succeeding: chmod then the script, and the run goes on |
| MainFlow.PosixReleaseCompileSucceeds | scripts/build.py:148-193 | a POSIX release build without profiling creates `bin` and runs the exact release command into `bin/vertex_release` |
| MainFlow.PosixReleaseRunSucceeds | scripts/build.py:203-214 | the release binary `bin/vertex_release` runs, and the run goes on |
| MainFlow.DebugProfileCompile | scripts/build.py:155-193 | `--debug --profile` on POSIX compiles `bin/vertex_debug` with the debug battery, the profiling define and `-show-timings` |
| Build.BuildProcess.RunProcess | scripts/build.py:42-44 | one program runs in the current directory; the exception is what `check=True` raises, and without one the status is 0 |
| Build.BuildProcess.Chdir | scripts/build.py:62 | the working directory becomes the relative path resolved against it |
| Build.BuildProcess.ChdirTo | scripts/build.py:123 | `os.chdir` to an absolute directory: the working directory becomes it and the change is recorded (also used for the root at line 218) |
| Build.BuildProcess.PrintError | scripts/build.py:13-14 | one `[ERROR]` line is recorded and the working directory stays |
| Build.BuildProcess.MakeDirs | scripts/build.py:99 | the directory resolved against the current one is created, and the working directory stays |
| Build.BuildProcess.CompileShaders | scripts/build.py:17-36 | the effects, directory and ending are exactly those of `Effects.CompileShadersEffect` |
| Build.BuildProcess.InitSubmodules | scripts/build.py:39-51 | the effects, directory and ending are exactly those of `Effects.InitSubmodulesEffect` |
| Build.BuildProcess.BuildImgui | scripts/build.py:54-78 | the effects, directory and ending are exactly those of `Effects.BuildImguiEffect`, including the `finally` on every way out |
| Build.BuildProcess.BuildVma | scripts/build.py:81-97 | the effects, directory and result are exactly those of `Effects.BuildVmaEffect` |
| Build.BuildProcess.TryBuildVma | scripts/build.py:98-137 | the effects, directory and result of the `try` block are exactly those of `Effects.VmaTryEffect` |
| Build.BuildProcess.CatchCalledProcessError | scripts/build.py:134-137 | a `CalledProcessError` is reported and gives False; any other exception passes through |
| Build.BuildProcess.BuildOdinProject | scripts/build.py:140-200 | the command built by successive `extend`s is `OdinCommand.BuildCommand`; effects and ending are those of `Effects.BuildOdinEffect`; the returned path is the platform's output file |
| Build.BuildProcess.RunBinary | scripts/build.py:203-214 | the effects and directory are exactly those of `Effects.RunBinaryEffect` |
| Build.BuildProcess.ReadMode | scripts/build.py:221-239 | the flag variables set by the `if`/`elif`/`else` give exactly `Args.ParseArgs` |
| Build.BuildProcess.RunStep | scripts/build.py:241-256 | one step from the root does exactly what `MainFlow.StepResultOf` says, and a step that lets the run go on leaves the process at the root |
| Build.BuildProcess.RunPlan | scripts/build.py:241-258 | running the steps one by one does exactly what `MainFlow.RunSteps` says |
| Build.BuildProcess.BuildAndRun | scripts/build.py:217-258 | `main` produces exactly the effects and the ending of `MainFlow.Pipeline` |

## Left out

- Console output. The `[SCRIPT]` progress lines, the colours (colorama) and the timing and program-output banners are not modelled. For `[ERROR]` lines only the fact that one is printed is kept, not its text, so the exit code it quotes is not modelled.
- Output redirection is not modelled: `os.devnull`, `subprocess.DEVNULL` and `stderr=STDOUT`.
- `shell=True` for the shader script is not modelled. The script's result comes from the world like any other tool's.
- The tools themselves are inputs. Each tool has one fixed result per run (`World.result`), and its side effects on files (for example the archive that `cp` creates) are not modelled. This loses nothing because every tool is run at most once in a run, so one result per tool is all a run can observe; and each file is tested at most once, so one existence flag per file is exactly what that test sees.
- The file tests are fixed flags of the world. `imguiLibPresent` stands for the existence of `external/odin-imgui/imgui_windows_x64.lib`, which the script tests on every platform. The other two flags stand for the VMA archive and the VMA source directory.
- The repository root that `main` computes from `os.path.abspath(__file__)` is the input `World.root`. `sys.platform` is the input `World.platform`.
- `os.chdir` and `os.makedirs` are assumed to succeed. A missing vendor directory or a permission error, which would raise from those calls, is not modelled.
- Only `CalledProcessError` and `OSError` are modelled as exceptions. Other exceptions are not: `KeyboardInterrupt`, a hung tool, and errors inside the script itself.
- An uncaught exception is modelled as exit status 1. The traceback it prints is not modelled.
- Paths are lists of components, so the host's separator in `os.path.join` is not modelled. It matters only for the VMA paths, which are used only on Linux, never on Windows (`MainFlow.VmaNeverOnWindows`).
- `..` is resolved lexically, by dropping the last component (`Paths.Enter`); the operating system resolves it against the physical directory. The ImGui round trip (`Effects.ImguiDirRoundTrip`, and `cwd == dir` in `Effects.BuildImguiEnds`) therefore assumes that `external` and `external/odin-imgui` are real directories and not symbolic links. `Paths.Enter` also lets an empty component leave the directory unchanged, where `os.chdir("")` would raise; the script never passes one.
- The explicit `returncode != 0` checks at lines 33-35, 45-49 and 194-196 appear only as proved-dead branches, because `check=True` has already raised for every nonzero status.
- Effects.CompileShadersEffect: its own contract states only that the directory is unchanged. The rest of its behaviour is stated by `Effects.CompileShadersEnds`, `Effects.ShadersChmodFirst` and `Effects.ShadersOnWindows`.
