/** Where the release archive is fetched from, and where the installer puts
    things on disk. */
module ArtifactLocator {

  const GithubRepo := "skyfe79/script-list"
  const BinaryName := "sl"

  /** Everything of a release URL before the version. */
  const ReleasePrefix := "https://github.com/" + GithubRepo + "/releases/download/v"

  /** The artifact name of the one archive that is published. */
  const ServedSuffix := "-macos-arm64.tar.gz"

  /** The release-asset naming scheme `.../v<version>/sl-v<version>-<platform>-<arch>.tar.gz`,
      against which `BinaryUrl` is compared. */
  function ArtifactUrl(version: string, platform: string, arch: string): string {
    ReleasePrefix + version + "/" + BinaryName + "-v" + version + "-" + platform + "-" + arch + ".tar.gz"
  }

  /** `getBinaryUrl`: both branches build the macOS arm64 URL. */
  function BinaryUrl(version: string, platform: string, arch: string): string {
    if platform == "macos" && arch == "arm64" then
      "https://github.com/" + GithubRepo + "/releases/download/v" + version + "/sl-v" + version + "-macos-arm64.tar.gz"
    else
      "https://github.com/" + GithubRepo + "/releases/download/v" + version + "/sl-v" + version + "-macos-arm64.tar.gz"
  }

  /** A release URL: the repository's download prefix, the version, "/sl-v",
      the version again, then the macOS arm64 artifact suffix. */
  lemma BinaryUrlShape(version: string, platform: string, arch: string)
    ensures |BinaryUrl(version, platform, arch)| == |ReleasePrefix| + 2 * |version| + |"/sl-v"| + |ServedSuffix|
    ensures BinaryUrl(version, platform, arch)[..|ReleasePrefix|] == ReleasePrefix
    ensures BinaryUrl(version, platform, arch)[|ReleasePrefix|..|ReleasePrefix| + |version|] == version
    ensures BinaryUrl(version, platform, arch)[|ReleasePrefix| + |version|..|ReleasePrefix| + |version| + 5] == "/sl-v"
    ensures BinaryUrl(version, platform, arch)[|ReleasePrefix| + |version| + 5..|ReleasePrefix| + 2 * |version| + 5] == version
    ensures BinaryUrl(version, platform, arch)[|BinaryUrl(version, platform, arch)| - |ServedSuffix|..] == ServedSuffix
  {
    var url := BinaryUrl(version, platform, arch);
    var n := |ReleasePrefix|;
    assert url == ReleasePrefix + version + "/sl-v" + version + ServedSuffix;
    assert url[..n] == ReleasePrefix;
    assert url[n..n + |version|] == version;
    assert url[n + |version|..n + |version| + 5] == "/sl-v";
    assert url[n + |version| + 5..n + 2 * |version| + 5] == version;
    assert url == (ReleasePrefix + version + "/sl-v" + version) + ServedSuffix;
  }

  /** The URL does not depend on the platform or the architecture. */
  lemma BinaryUrlIgnoresPlatform(version: string, platform: string, arch: string)
    ensures BinaryUrl(version, platform, arch) == BinaryUrl(version, "macos", "arm64")
  {
  }

  /** Whatever the platform, the URL is the macOS arm64 artifact of that version. */
  lemma BinaryUrlIsMacArm64Artifact(version: string, platform: string, arch: string)
    ensures BinaryUrl(version, platform, arch) == ArtifactUrl(version, "macos", "arm64")
  {
  }

  /** Every other resolvable platform is served an artifact that is not its own. */
  lemma OtherPlatformsGetForeignArtifact(version: string, platform: string, arch: string)
    requires platform in {"macos", "linux", "windows"} && arch in {"x64", "arm64"}
    requires !(platform == "macos" && arch == "arm64")
    ensures BinaryUrl(version, platform, arch) != ArtifactUrl(version, platform, arch)
  {
    var served := BinaryUrl(version, platform, arch);
    var own := ArtifactUrl(version, platform, arch);
    var tail := "-" + platform + "-" + arch + ".tar.gz";
    var head := ReleasePrefix + version + "/" + BinaryName + "-v" + version;
    assert own == head + tail;
    assert served == head + ServedSuffix;
    if |tail| == |ServedSuffix| {
      // only windows/x64 has a tail as long as the served one; they differ at the platform's first letter
      assert served[|head| + 1] == 'm';
      assert own[|head| + 1] == platform[0];
    }
  }

  /** The version part of a URL built by `BinaryUrl`. */
  function UrlVersion(url: string): string
    requires |url| >= |ReleasePrefix| + |"/sl-v"| + |ServedSuffix|
  {
    var n := (|url| - |ReleasePrefix| - |"/sl-v"| - |ServedSuffix|) / 2;
    url[|ReleasePrefix|..|ReleasePrefix| + n]
  }

  /** The version can be read back from the URL, so distinct versions fetch distinct URLs. */
  lemma UrlVersionRoundTrip(version: string, platform: string, arch: string)
    ensures UrlVersion(BinaryUrl(version, platform, arch)) == version
  {
    var url := BinaryUrl(version, platform, arch);
    assert url == ReleasePrefix + version + ("/sl-v" + version + ServedSuffix);
  }

  /** `path.join(dir, name)` for a directory and a plain entry name. */
  function Join(dir: string, name: string): string {
    dir + "/" + name
  }

  /** Within one directory, distinct names give distinct paths. */
  lemma JoinInjective(dir: string)
    ensures forall a, b :: Join(dir, a) == Join(dir, b) ==> a == b
  {
    forall a, b | Join(dir, a) == Join(dir, b) ensures a == b {
      assert a == Join(dir, a)[|dir| + 1..];
      assert b == Join(dir, b)[|dir| + 1..];
    }
  }

  /** `BIN_DIR`, the package's own `bin` directory. */
  function BinDir(packageDir: string): string {
    Join(packageDir, "bin")
  }

  /** Where the executable is installed. */
  function BinaryPath(packageDir: string): string {
    Join(BinDir(packageDir), BinaryName)
  }

  /** Where the archive is downloaded to. */
  function TempFile(packageDir: string): string {
    Join(packageDir, "sl.tar.gz")
  }

  /** The bin directory, the binary and the archive are three different paths. */
  lemma LayoutDistinct(packageDir: string)
    ensures BinDir(packageDir) != BinaryPath(packageDir)
    ensures TempFile(packageDir) != BinaryPath(packageDir) && TempFile(packageDir) != BinDir(packageDir)
  {
    var n := |packageDir|;
    assert BinaryPath(packageDir)[n + 1] == 'b';
    assert TempFile(packageDir)[n + 1] == 's';
  }

  /** Neither an entry extracted into the bin directory nor a link named `sl`
      in any directory lands on the archive's path. */
  lemma ArchiveNeverOverwritten(packageDir: string, entry: string, globalDir: string)
    ensures Join(BinDir(packageDir), entry) != TempFile(packageDir)
    ensures Join(globalDir, BinaryName) != TempFile(packageDir)
  {
    var n := |packageDir|;
    assert Join(BinDir(packageDir), entry)[n + 1] == 'b';
    assert TempFile(packageDir)[n + 1] == 's';
    var link := Join(globalDir, BinaryName);
    var temp := TempFile(packageDir);
    assert link[|link| - 1] == 'l';
    assert temp[|temp| - 1] == 'z';
  }
}
