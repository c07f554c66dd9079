/**
 * Argument interpretation of `main` in scripts/build.py: the process
 * arguments (all of `sys.argv`, the script name included) become a build
 * configuration, or the run ends with a usage error.
 */
module Args {
  import opened Wrappers

  const DEBUG_FLAG := "--debug"
  const RELEASE_FLAG := "--release"
  const PROFILE_FLAG := "--profile"
  const REBUILD_IMGUI_FLAG := "--rebuild-imgui"

  /** The flags the script looks for; every other argument is ignored. */
  const FLAGS: set<string> := {DEBUG_FLAG, RELEASE_FLAG, PROFILE_FLAG, REBUILD_IMGUI_FLAG}

  /**
   * The values of `debug_mode`, `release_mode` and `profile_mode` once the
   * mode has been chosen, and whether the ImGui build is forced.
   */
  datatype Config = Config(debug: bool, release: bool, profile: bool, forceImgui: bool)

  /**
   * The `if`/`elif`/`else` over membership tests in `main`: `--debug` is
   * tested first, `--release` second, and with neither the script stops
   * (None).
   */
  function ParseArgs(argv: seq<string>): (r: Option<Config>)
    ensures r.None? <==> DEBUG_FLAG !in argv && RELEASE_FLAG !in argv
    ensures r.Some? ==> (r.value.debug <==> DEBUG_FLAG in argv)
    ensures r.Some? ==> (r.value.release <==> DEBUG_FLAG !in argv && RELEASE_FLAG in argv)
    ensures r.Some? ==> r.value.debug != r.value.release
    ensures r.Some? ==> (r.value.profile <==> PROFILE_FLAG in argv)
    ensures r.Some? ==> (r.value.forceImgui <==> REBUILD_IMGUI_FLAG in argv)
  {
    var force := REBUILD_IMGUI_FLAG in argv;
    if DEBUG_FLAG in argv then
      Some(Config(true, false, PROFILE_FLAG in argv, force))
    else if RELEASE_FLAG in argv then
      Some(Config(false, true, PROFILE_FLAG in argv, force))
    else
      None
  }

  /** The arguments of `argv` that the script recognises, in their order. */
  function Recognised(argv: seq<string>): (r: seq<string>)
    ensures forall x :: x in r <==> x in argv && x in FLAGS
    ensures |r| <= |argv|
  {
    if argv == [] then []
    else if argv[0] in FLAGS then [argv[0]] + Recognised(argv[1..])
    else Recognised(argv[1..])
  }

  /** Unrecognised arguments change nothing: only the four flags matter. */
  lemma ParseIgnoresUnrecognised(argv: seq<string>)
    ensures ParseArgs(Recognised(argv)) == ParseArgs(argv)
  {
  }

  /** The configuration depends only on which flags occur, not on their order or repetition. */
  lemma ParseDependsOnlyOnPresence(a: seq<string>, b: seq<string>)
    requires forall x :: x in FLAGS ==> (x in a <==> x in b)
    ensures ParseArgs(a) == ParseArgs(b)
  {
  }

  /** `--debug` wins over `--release` wherever the two occur. */
  lemma DebugTakesPrecedence(argv: seq<string>)
    requires DEBUG_FLAG in argv && RELEASE_FLAG in argv
    ensures ParseArgs(argv) == Some(Config(true, false, PROFILE_FLAG in argv, REBUILD_IMGUI_FLAG in argv))
  {
  }
}
