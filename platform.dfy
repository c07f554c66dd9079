/**
 * The platform tests of scripts/build.py and the file names that depend on
 * them. The platform is the value of `sys.platform` ("win32", "linux",
 * "darwin", ...), passed in rather than detected.
 */
module Platform {

  /** `sys.platform.startswith("win")`. */
  predicate IsWindows(platform: string) {
    |platform| >= 3 && platform[..3] == "win"
  }

  /** `sys.platform == "linux"`: the one platform that builds the VMA backend. */
  predicate IsLinux(platform: string) {
    platform == "linux"
  }

  /** The platform that builds the VMA backend is not a Windows platform. */
  lemma LinuxIsNotWindows(platform: string)
    ensures IsLinux(platform) ==> !IsWindows(platform)
  {
    if IsLinux(platform) {
      assert platform[0] == 'l';
    }
  }

  /** The path separator used in the names the script spells out per platform. */
  function Separator(platform: string): char {
    if IsWindows(platform) then '\\' else '/'
  }

  /** The executable suffix on the platform. */
  function ExeSuffix(platform: string): string {
    if IsWindows(platform) then ".exe" else ""
  }

  /** The shader script `compile_shaders` runs. */
  function ShaderScript(platform: string): (s: string)
    ensures s == (if IsWindows(platform) then "scripts" else "./scripts")
                 + [Separator(platform)] + "compile" + (if IsWindows(platform) then ".bat" else ".sh")
  {
    if IsWindows(platform) then "scripts\\compile.bat" else "./scripts/compile.sh"
  }

  /**
   * The binary `build_odin_project` writes: in `bin`, named after the mode,
   * with the platform's separator and executable suffix. `debug` chooses the
   * debug name; anything else gives the release name.
   */
  function OutputFile(platform: string, debug: bool): (path: string)
    ensures path == "bin" + [Separator(platform)] + "vertex_"
                    + (if debug then "debug" else "release") + ExeSuffix(platform)
  {
    if IsWindows(platform) then
      (if debug then "bin\\vertex_debug.exe" else "bin\\vertex_release.exe")
    else
      (if debug then "bin/vertex_debug" else "bin/vertex_release")
  }

  /** The debug and the release binary never share a name. */
  lemma OutputFilesDiffer(platform: string)
    ensures OutputFile(platform, true) != OutputFile(platform, false)
  {
    var d, r := OutputFile(platform, true), OutputFile(platform, false);
    assert d[11] != r[11];
  }
}
