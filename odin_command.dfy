/**
 * The argument vector `build_odin_project` hands to the Odin compiler
 * (scripts/build.py, `build_cmd`).
 */
module OdinCommand {

  /** The eight static-analysis flags of a debug build. */
  const VET_FLAGS: seq<string> := [
    "-vet-unused-variables", "-vet-shadowing", "-vet-using-stmt", "-vet-using-param",
    "-vet-style", "-vet-semicolon", "-vet-cast", "-vet-tabs"
  ]

  /** The battery a debug build adds: debug information, the vet flags, warnings as errors. */
  const DEBUG_FLAGS: seq<string> := ["-debug"] + VET_FLAGS + ["-warnings-as-errors"]

  /** The battery a release build adds: optimise for speed, no bounds checks, no assertions. */
  const RELEASE_FLAGS: seq<string> := ["-o:speed", "-no-bounds-check", "-disable-assert"]

  const PROFILE_DEFINE := "-define:PROFILE=true"
  const SHOW_TIMINGS := "-show-timings"

  /** The fixed head of every command. */
  function Head(output: string): seq<string> {
    ["odin", "build", "src", "-out:" + output]
  }

  /** The profiling define, present only when profiling. */
  function Define(profile: bool): seq<string> {
    if profile then [PROFILE_DEFINE] else []
  }

  /**
   * `build_cmd` once every `extend` has run: the head, the mode battery
   * (debug wins over release; with neither there is none), the profiling
   * define only inside a mode branch, and the timings flag last.
   */
  function BuildCommand(output: string, debug: bool, release: bool, profile: bool): (cmd: seq<string>)
    ensures |cmd| == 5 + (if debug then |DEBUG_FLAGS| else if release then |RELEASE_FLAGS| else 0)
                       + (if profile && (debug || release) then 1 else 0)
    ensures cmd[..4] == Head(output)
    ensures cmd[|cmd| - 1] == SHOW_TIMINGS
  {
    var battery := if debug then DEBUG_FLAGS + Define(profile)
                   else if release then RELEASE_FLAGS + Define(profile)
                   else [];
    Head(output) + battery + [SHOW_TIMINGS]
  }

  /** No flag the script adds can be mistaken for a head token. */
  lemma FlagsAreNotHeadTokens(output: string, f: string)
    requires f in DEBUG_FLAGS || f in RELEASE_FLAGS || f == PROFILE_DEFINE || f == SHOW_TIMINGS
    ensures f !in Head(output)
  {
    assert f[0] == '-';
    assert |f| > 2 && (f[1] != 'o' || f[2] != 'u');
    assert ("-out:" + output)[1] == 'o' && ("-out:" + output)[2] == 'u';
  }

  /** A debug command carries the whole debug battery and nothing of the release one. */
  lemma DebugCommand(output: string, release: bool, profile: bool)
    ensures var cmd := BuildCommand(output, true, release, profile);
      && cmd[4..4 + |DEBUG_FLAGS|] == DEBUG_FLAGS
      && "-debug" in cmd && "-warnings-as-errors" in cmd
      && (forall f :: f in VET_FLAGS ==> f in cmd)
      && (forall f :: f in RELEASE_FLAGS ==> f !in cmd)
  {
    var cmd := BuildCommand(output, true, release, profile);
    assert cmd == Head(output) + DEBUG_FLAGS + Define(profile) + [SHOW_TIMINGS];
    forall f | f in RELEASE_FLAGS
      ensures f !in cmd
    {
      FlagsAreNotHeadTokens(output, f);
      assert f !in DEBUG_FLAGS;
    }
    assert cmd[4] == "-debug" && cmd[13] == "-warnings-as-errors";
    forall f | f in VET_FLAGS
      ensures f in cmd
    {
      var i :| 0 <= i < |VET_FLAGS| && VET_FLAGS[i] == f;
      assert cmd[5 + i] == f;
    }
  }

  /**
   * A release command (debug false) carries exactly the release battery
   * right after the head, and none of the debug flags.
   */
  lemma ReleaseCommand(output: string, profile: bool)
    ensures var cmd := BuildCommand(output, false, true, profile);
      && |cmd| == 4 + |RELEASE_FLAGS| + |Define(profile)| + 1
      && cmd[4..4 + |RELEASE_FLAGS|] == RELEASE_FLAGS
      && (forall f :: f in DEBUG_FLAGS ==> f !in cmd)
  {
    var cmd := BuildCommand(output, false, true, profile);
    assert cmd == Head(output) + RELEASE_FLAGS + Define(profile) + [SHOW_TIMINGS];
    forall f | f in DEBUG_FLAGS
      ensures f !in cmd
    {
      FlagsAreNotHeadTokens(output, f);
      assert f !in RELEASE_FLAGS;
    }
  }

  /** With neither mode the command is the head and the timings flag alone. */
  lemma NoModeCommand(output: string, profile: bool)
    ensures BuildCommand(output, false, false, profile) == Head(output) + [SHOW_TIMINGS]
  {
  }

  /** The occurrences of `x` in `a + b + c` are those in `b` when `a` and `c` hold none. */
  lemma CountInMiddle(a: seq<string>, b: seq<string>, c: seq<string>, x: string)
    requires x !in a && x !in c
    ensures multiset(a + b + c)[x] == multiset(b)[x]
  {
    assert multiset(a + b + c) == multiset(a) + multiset(b) + multiset(c);
  }

  /**
   * The profiling define occurs once when profiling inside a mode branch
   * and not at all otherwise.
   */
  lemma ProfileDefineCount(output: string, debug: bool, release: bool, profile: bool)
    ensures multiset(BuildCommand(output, debug, release, profile))[PROFILE_DEFINE]
            == (if profile && (debug || release) then 1 else 0)
  {
    DefineOnlyInTail(output, debug, release, profile);
    DefineCount(debug || release, profile);
  }

  /** Only the define part of the command can hold the define. */
  lemma DefineOnlyInTail(output: string, debug: bool, release: bool, profile: bool)
    ensures multiset(BuildCommand(output, debug, release, profile))[PROFILE_DEFINE]
            == multiset(if debug || release then Define(profile) else [])[PROFILE_DEFINE]
  {
    var battery := if debug then DEBUG_FLAGS else if release then RELEASE_FLAGS else [];
    var define := if debug || release then Define(profile) else [];
    var rest := Head(output) + battery;
    assert BuildCommand(output, debug, release, profile) == rest + define + [SHOW_TIMINGS];
    FlagsAreNotHeadTokens(output, PROFILE_DEFINE);
    assert PROFILE_DEFINE !in battery;
    assert PROFILE_DEFINE !in [SHOW_TIMINGS];
    CountInMiddle(rest, define, [SHOW_TIMINGS], PROFILE_DEFINE);
  }

  lemma DefineCount(mode: bool, profile: bool)
    ensures multiset(if mode then Define(profile) else [])[PROFILE_DEFINE]
            == (if profile && mode then 1 else 0)
  {
  }

  /**
   * A profiled debug command, token by token: the head, the debug battery,
   * the define, the timings flag; the release flag changes nothing.
   */
  lemma DebugProfileCommand(output: string, release: bool)
    ensures BuildCommand(output, true, release, true)
         == ["odin", "build", "src", "-out:" + output] + DEBUG_FLAGS + [PROFILE_DEFINE, SHOW_TIMINGS]
  {
    assert BuildCommand(output, true, release, true)
        == Head(output) + (DEBUG_FLAGS + [PROFILE_DEFINE]) + [SHOW_TIMINGS];
  }

  /** When present the define sits right after the mode battery and right before the timings flag. */
  lemma ProfileDefinePosition(output: string, debug: bool, release: bool, profile: bool)
    requires profile && (debug || release)
    ensures var cmd := BuildCommand(output, debug, release, profile);
      && cmd[|cmd| - 2] == PROFILE_DEFINE
      && |cmd| - 2 == 4 + (if debug then |DEBUG_FLAGS| else |RELEASE_FLAGS|)
  {
  }
}
