/** `install`: resolve the platform, make the bin directory, stop if the binary
    is already there, otherwise download the archive, extract it, make the
    binary executable off Windows, try to link it into npm's global bin
    directory, and remove the archive. Any thrown error ends the process with
    status 1. Everything the run learns from outside is carried by `Env`. */
module Provisioner {
  import opened Results
  import opened HostFs
  import opened PlatformResolver
  import opened ArtifactLocator
  import opened Fetcher
  import Text

  /** `0o755`. */
  const ExecutableMode := 493

  /** The facts a run is given: the package version, the package directory
      (`__dirname`), the raw host identifiers, the network's answers in request
      order, what tar does, the output of `npm bin -g` (None when it throws), and
      whether the global bin directory accepts a new link. */
  datatype Env = Env(
    version: string,
    packageDir: Path,
    rawOs: string,
    rawArch: string,
    replies: seq<Reply>,
    tar: TarOutcome,
    npmBinOutput: Option<string>,
    globalDirWritable: bool)

  datatype InstallError =
    | Unsupported(platformError: PlatformError)
    | FetchFailed(fetchError: FetchError)
    | ExtractFailed(cause: string)
    | ChmodFailed(path: Path)
    | CleanupFailed(path: Path)
  {
    /** The `error.message` printed after "Installation failed:": the thrown
        error's own text, tar's cause behind "Failed to extract: ", and Node's
        ENOENT text naming the system call and the quoted path. */
    function Message(): (m: string)
      ensures Unsupported? ==> m == platformError.Message()
      ensures FetchFailed? ==> m == fetchError.Message()
      ensures ExtractFailed? ==> |m| == 19 + |cause| && m[..19] == "Failed to extract: " && m[19..] == cause
      ensures ChmodFailed? ==> |m| == 43 + |path| && m[..42] == "ENOENT: no such file or directory, chmod '"
                               && m[42..] == path + "'"
      ensures CleanupFailed? ==> |m| == 44 + |path| && m[..43] == "ENOENT: no such file or directory, unlink '"
                                 && m[43..] == path + "'"
    {
      match this
      case Unsupported(e) => e.Message()
      case FetchFailed(e) => e.Message()
      case ExtractFailed(cause) => "Failed to extract: " + cause
      case ChmodFailed(path) => "ENOENT: no such file or directory, chmod '" + path + "'"
      case CleanupFailed(path) => "ENOENT: no such file or directory, unlink '" + path + "'"
    }
  }

  datatype Outcome = Installed(binaryPath: Path) | AlreadyInstalled | Failed(error: InstallError)

  /** The process's exit status: `process.exit(1)` in the catch block, 0 otherwise. */
  function ExitStatus(outcome: Outcome): (code: int)
    ensures code in {0, 1}
    ensures code == 1 <==> outcome.Failed?
  {
    if outcome.Failed? then 1 else 0
  }

  /** The directory `npm bin -g` names, after `trim()`; empty when the query failed. */
  function GlobalDir(npmBinOutput: Option<string>): string {
    if npmBinOutput.Some? then Text.Trim(npmBinOutput.value) else ""
  }

  /** The best-effort global link step. Its result says whether the link was made;
      it never fails the run. */
  function LinkGlobal(d: Disk, binaryPath: Path, npmBinOutput: Option<string>, writable: bool): Run<bool>
  {
    var queried := [QueryGlobalBin];
    if npmBinOutput.None? then Run(false, d, queried)
    else
      var dir := GlobalDir(npmBinOutput);
      if dir == "" || dir !in d.nodes then Run(false, d, queried)
      else
        var link := Join(dir, BinaryName);
        if link in d.nodes then Run(false, d, queried)
        else if d.nodes[dir].Dir? && writable then
          Run(true, d.Link(binaryPath, link), queried + [CreateSymlink(binaryPath, link)])
        else
          Run(false, d, queried)
  }

  /** The link is made exactly when `npm bin -g` printed a non-empty directory that
      exists and is a directory, nothing is at `<dir>/sl` yet, and the directory
      accepts the link; either way the query is the step's first effect. */
  lemma LinkGlobalCreatesLinkExactlyWhen(d: Disk, binaryPath: Path, npmBinOutput: Option<string>, writable: bool)
    ensures LinkGlobal(d, binaryPath, npmBinOutput, writable).result <==>
              && npmBinOutput.Some?
              && GlobalDir(npmBinOutput) != ""
              && GlobalDir(npmBinOutput) in d.nodes && d.nodes[GlobalDir(npmBinOutput)].Dir?
              && Join(GlobalDir(npmBinOutput), BinaryName) !in d.nodes
              && writable
    ensures LinkGlobal(d, binaryPath, npmBinOutput, writable).effects == [QueryGlobalBin] + if LinkGlobal(d, binaryPath, npmBinOutput, writable).result then [CreateSymlink(binaryPath, Join(GlobalDir(npmBinOutput), BinaryName))] else []
  {
  }

  /** The link step changes nothing but the link's own path, and keeps every entry it finds. */
  lemma LinkGlobalFrame(d: Disk, binaryPath: Path, npmBinOutput: Option<string>, writable: bool)
    ensures SameExcept(LinkGlobal(d, binaryPath, npmBinOutput, writable).disk, d, Join(GlobalDir(npmBinOutput), BinaryName))
    ensures LinkGlobal(d, binaryPath, npmBinOutput, writable).disk.modes == d.modes
    ensures forall p :: p in d.nodes ==>
              p in LinkGlobal(d, binaryPath, npmBinOutput, writable).disk.nodes
              && LinkGlobal(d, binaryPath, npmBinOutput, writable).disk.nodes[p] == d.nodes[p]
  {
  }

  /** Specification of the last two steps of `install`: the global link, then
      removing the archive. */
  function Complete(d: Disk, env: Env): (run: Run<Outcome>) {
    var binaryPath := BinaryPath(env.packageDir);
    var temp := TempFile(env.packageDir);
    var linked := LinkGlobal(d, binaryPath, env.npmBinOutput, env.globalDirWritable);
    if linked.disk.Unlinkable(temp) then
      Run(Installed(binaryPath), linked.disk.Remove(temp), linked.effects + [Remove(temp)])
    else
      Run(Failed(CleanupFailed(temp)), linked.disk, linked.effects)
  }

  /** Specification of the extract and chmod steps: `Some` failure ends the
      run, `None` goes on to the link and cleanup steps. */
  function Prepare(d: Disk, env: Env): Run<Option<Outcome>> {
    var binDir := BinDir(env.packageDir);
    var binaryPath := BinaryPath(env.packageDir);
    var untarred := [RunTar(TempFile(env.packageDir), binDir)];
    match env.tar
    case TarFailed(cause) => Run(Some(Failed(ExtractFailed(cause))), d, untarred)
    case Extracted(entries) =>
      var unpacked := d.Unpack(binDir, entries);
      if env.rawOs == "win32" then Run(None, unpacked, untarred)
      else if binaryPath !in unpacked.nodes then Run(Some(Failed(ChmodFailed(binaryPath))), unpacked, untarred)
      else Run(None, unpacked.Chmod(binaryPath, ExecutableMode), untarred + [SetMode(binaryPath, ExecutableMode)])
  }

  /** Specification of `install` after a successful download: extract, make
      executable off Windows, then `Complete`. */
  function Finish(d: Disk, env: Env): (run: Run<Outcome>) {
    var prepared := Prepare(d, env);
    if prepared.result.Some? then Run(prepared.result.value, prepared.disk, prepared.effects)
    else
      var rest := Complete(prepared.disk, env);
      Run(rest.result, rest.disk, prepared.effects + rest.effects)
  }

  /** Specification of `install` from the download on, when the bin directory
      exists and the binary does not. */
  function Provision(d: Disk, env: Env, platform: Platform): (run: Run<Outcome>)
    requires Settles(env.replies)
  {
    var url := BinaryUrl(env.version, platform.platform, platform.arch);
    var fetched := Download(d, url, TempFile(env.packageDir), env.replies);
    if fetched.result.Err? then
      Run(Failed(FetchFailed(fetched.result.error)), fetched.disk, fetched.effects)
    else
      var rest := Finish(fetched.disk, env);
      Run(rest.result, rest.disk, fetched.effects + rest.effects)
  }

  /** Specification of `install` as a whole. */
  function InstallRun(d: Disk, env: Env): (run: Run<Outcome>)
    requires Settles(env.replies)
  {
    match GetPlatform(env.rawOs, env.rawArch)
    case Err(e) => Run(Failed(Unsupported(e)), d, [])
    case Ok(platform) =>
      var binDir := BinDir(env.packageDir);
      var ready := if binDir in d.nodes then d else d.MakeDir(binDir);
      var made := if binDir in d.nodes then [] else [MakeDir(binDir)];
      if BinaryPath(env.packageDir) in ready.nodes then
        Run(AlreadyInstalled, ready, made)
      else
        var rest := Provision(ready, env, platform);
        Run(rest.result, rest.disk, made + rest.effects)
  }

  /** The global link step as the source runs it inside its own try block. */
  method LinkGlobalBin(host: Host, binaryPath: Path, npmBinOutput: Option<string>, writable: bool)
    modifies host
    ensures host.State() == LinkGlobal(old(host.State()), binaryPath, npmBinOutput, writable).disk
    ensures host.trace == old(host.trace) + LinkGlobal(old(host.State()), binaryPath, npmBinOutput, writable).effects
  {
    var output := host.ExecNpmBinGlobal(npmBinOutput);
    if output.Some? {
      var dir := GlobalDir(output);
      if dir != "" && host.ExistsSync(dir) {
        if !host.ExistsSync(Join(dir, BinaryName)) {
          var linked := host.SymlinkSync(binaryPath, dir, BinaryName, writable);
        }
      }
    }
  }

  /** The link and cleanup steps. */
  method CompleteOn(host: Host, env: Env) returns (outcome: Outcome)
    modifies host
    ensures outcome == Complete(old(host.State()), env).result
    ensures host.State() == Complete(old(host.State()), env).disk
    ensures host.trace == old(host.trace) + Complete(old(host.State()), env).effects
  {
    var binaryPath := BinaryPath(env.packageDir);
    var temp := TempFile(env.packageDir);
    LinkGlobalBin(host, binaryPath, env.npmBinOutput, env.globalDirWritable);
    var removed := host.UnlinkSync(temp);
    outcome := if removed then Installed(binaryPath) else Failed(CleanupFailed(temp));
  }

  /** The extract and chmod steps. */
  method PrepareOn(host: Host, env: Env) returns (failure: Option<Outcome>)
    modifies host
    ensures failure == Prepare(old(host.State()), env).result
    ensures host.State() == Prepare(old(host.State()), env).disk
    ensures host.trace == old(host.trace) + Prepare(old(host.State()), env).effects
  {
    var binDir := BinDir(env.packageDir);
    var binaryPath := BinaryPath(env.packageDir);
    var extracted := host.ExecTar(TempFile(env.packageDir), binDir, env.tar);
    if !extracted {
      return Some(Failed(ExtractFailed(env.tar.message)));
    }
    failure := None;
    if env.rawOs != "win32" {
      var changed := host.ChmodSync(binaryPath, ExecutableMode);
      if !changed {
        failure := Some(Failed(ChmodFailed(binaryPath)));
      }
    }
  }

  /** `PrepareOn`, then `CompleteOn` unless it failed. */
  method FinishOn(host: Host, env: Env) returns (outcome: Outcome)
    modifies host
    ensures outcome == Finish(old(host.State()), env).result
    ensures host.State() == Finish(old(host.State()), env).disk
    ensures host.trace == old(host.trace) + Finish(old(host.State()), env).effects
  {
    ghost var before := host.trace;
    ghost var prepared := Prepare(host.State(), env);
    var failure := PrepareOn(host, env);
    if failure.Some? {
      return failure.value;
    }
    ghost var rest := Complete(host.State(), env);
    outcome := CompleteOn(host, env);
    AppendAssociates(before, prepared.effects, rest.effects);
  }

  /** The download, then `FinishOn`. */
  method ProvisionOn(host: Host, env: Env, platform: Platform) returns (outcome: Outcome)
    requires Settles(env.replies)
    modifies host
    ensures outcome == Provision(old(host.State()), env, platform).result
    ensures host.State() == Provision(old(host.State()), env, platform).disk
    ensures host.trace == old(host.trace) + Provision(old(host.State()), env, platform).effects
  {
    var url := BinaryUrl(env.version, platform.platform, platform.arch);
    ghost var download := Download(host.State(), url, TempFile(env.packageDir), env.replies);
    ghost var before := host.trace;
    var fetched := DownloadFile(host, url, TempFile(env.packageDir), env.replies);
    if fetched.Err? {
      return Failed(FetchFailed(fetched.error));
    }
    ghost var finish := Finish(host.State(), env);
    outcome := FinishOn(host, env);
    assert host.trace == (before + download.effects) + finish.effects;
    AppendAssociates(before, download.effects, finish.effects);
  }

  /** `install`, step by step over the host. */
  method Install(host: Host, env: Env) returns (outcome: Outcome)
    requires Settles(env.replies)
    modifies host
    ensures outcome == InstallRun(old(host.State()), env).result
    ensures host.State() == InstallRun(old(host.State()), env).disk
    ensures host.trace == old(host.trace) + InstallRun(old(host.State()), env).effects
  {
    var resolved := GetPlatform(env.rawOs, env.rawArch);
    if resolved.Err? {
      return Failed(Unsupported(resolved.error));
    }
    var binDir := BinDir(env.packageDir);
    if !host.ExistsSync(binDir) {
      host.MkdirSync(binDir);
    }
    var binaryPath := Join(binDir, BinaryName);
    if host.ExistsSync(binaryPath) {
      return AlreadyInstalled;
    }
    ghost var made := host.trace[|old(host.trace)|..];
    assert host.trace == old(host.trace) + made;
    ghost var provision := Provision(host.State(), env, resolved.value);
    outcome := ProvisionOn(host, env, resolved.value);
    AppendAssociates(old(host.trace), made, provision.effects);
  }
}
