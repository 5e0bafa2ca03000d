/** Platform resolution: the host's raw OS and CPU identifiers (Node's
    `process.platform` and `process.arch`, passed in here) are looked up in two
    closed tables; both lookups must succeed. */
module PlatformResolver {
  import opened Results

  /** `PLATFORM_MAP`: raw OS identifier to release platform name. */
  const PlatformMap: map<string, string> :=
    map["darwin" := "macos", "linux" := "linux", "win32" := "windows"]

  /** `ARCH_MAP`: raw architecture identifier to release architecture name. */
  const ArchMap: map<string, string> :=
    map["x64" := "x64", "arm64" := "arm64"]

  /** A resolved (platform, arch) pair, named as release artifacts name them. */
  datatype Platform = Platform(platform: string, arch: string)

  datatype PlatformError = UnsupportedPlatform(rawOs: string, rawArch: string)
  {
    /** The text of the thrown `Error`. */
    function Message(): (m: string)
      ensures |m| == |"Unsupported platform: "| + |rawOs| + 1 + |rawArch|
      ensures m[..22] == "Unsupported platform: " && m[22..22 + |rawOs|] == rawOs
      ensures m[22 + |rawOs|] == ' '
      ensures m[|m| - |rawArch|..] == rawArch
    {
      "Unsupported platform: " + rawOs + " " + rawArch
    }
  }

  /** `getPlatform`, with the raw identifiers as parameters. */
  function GetPlatform(rawOs: string, rawArch: string): (r: Result<Platform, PlatformError>)
    ensures r.Ok? <==> rawOs in {"darwin", "linux", "win32"} && rawArch in {"x64", "arm64"}
    ensures r.Ok? ==> r.value.platform in {"macos", "linux", "windows"} && r.value.arch == rawArch
    ensures r.Err? ==> r.error == UnsupportedPlatform(rawOs, rawArch)
  {
    if rawOs !in PlatformMap || rawArch !in ArchMap then
      Err(UnsupportedPlatform(rawOs, rawArch))
    else
      Ok(Platform(PlatformMap[rawOs], ArchMap[rawArch]))
  }

  /** The OS table sends darwin to macos, linux to linux and win32 to windows. */
  lemma ResolvedOsNames(rawArch: string)
    requires rawArch in {"x64", "arm64"}
    ensures GetPlatform("darwin", rawArch) == Ok(Platform("macos", rawArch))
    ensures GetPlatform("linux", rawArch) == Ok(Platform("linux", rawArch))
    ensures GetPlatform("win32", rawArch) == Ok(Platform("windows", rawArch))
  {
  }

  /** No two raw OS identifiers resolve to the same platform name, and the
      architecture name is kept as it is. */
  lemma ResolutionInjective(os1: string, arch1: string, os2: string, arch2: string)
    requires GetPlatform(os1, arch1).Ok? && GetPlatform(os2, arch2).Ok?
    requires GetPlatform(os1, arch1) == GetPlatform(os2, arch2)
    ensures os1 == os2 && arch1 == arch2
  {
  }
}
