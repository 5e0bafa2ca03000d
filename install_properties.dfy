/** What a run of `install` does, stated over its specification `InstallRun`:
    which outcome it reaches, which effects happen under which conditions and
    in which order, and what it leaves on disk. */
module InstallProperties {
  import opened Results
  import opened HostFs
  import opened PlatformResolver
  import opened ArtifactLocator
  import opened Fetcher
  import opened Provisioner

  /** The outcome of `install` as a decision table over the inputs alone: the
      platform, whether the binary is already there, the reply that ends the
      redirect chain, the tar outcome and the raw OS. */
  function Decision(binaryPresent: bool, env: Env): Outcome
    requires Settles(env.replies)
  {
    var last := FinalReply(env.replies);
    if GetPlatform(env.rawOs, env.rawArch).Err? then Failed(Unsupported(UnsupportedPlatform(env.rawOs, env.rawArch)))
    else if binaryPresent then AlreadyInstalled
    else if last.TransportFailure? then Failed(FetchFailed(TransportError(last.message)))
    else if last.Rejected? then Failed(FetchFailed(InvalidUrl(last.message)))
    else if last.status != 200 then Failed(FetchFailed(DownloadFailed(last.status)))
    else if env.tar.TarFailed? then Failed(ExtractFailed(env.tar.message))
    else if env.rawOs != "win32" && BinaryName !in env.tar.entries then Failed(ChmodFailed(BinaryPath(env.packageDir)))
    else Installed(BinaryPath(env.packageDir))
  }

  /** Where the global link goes. */
  function GlobalLink(env: Env): Path {
    Join(GlobalDir(env.npmBinOutput), BinaryName)
  }

  /** The chmod effects of a log, in order. */
  function Chmods(effects: seq<Effect>): seq<Effect> {
    if effects == [] then []
    else (if effects[0].SetMode? then [effects[0]] else []) + Chmods(effects[1..])
  }

  /** The symlink effects of a log, in order. */
  function Links(effects: seq<Effect>): seq<Effect> {
    if effects == [] then []
    else (if effects[0].CreateSymlink? then [effects[0]] else []) + Links(effects[1..])
  }

  lemma {:induction false} KindsAppend(a: seq<Effect>, b: seq<Effect>)
    ensures Chmods(a + b) == Chmods(a) + Chmods(b)
    ensures Links(a + b) == Links(a) + Links(b)
  {
    if a != [] {
      assert (a + b)[1..] == a[1..] + b;
      KindsAppend(a[1..], b);
    } else {
      assert a + b == b;
    }
  }

  lemma KindsOfOne(e: Effect)
    ensures Chmods([e]) == if e.SetMode? then [e] else []
    ensures Links([e]) == if e.CreateSymlink? then [e] else []
  {
    assert [e][1..] == [];
  }

  /** A log with neither chmod nor symlink effects filters to nothing. */
  lemma {:induction false} KindsNone(effects: seq<Effect>)
    requires forall e :: e in effects ==> !e.SetMode? && !e.CreateSymlink?
    ensures Chmods(effects) == [] && Links(effects) == []
  {
    if effects != [] {
      assert effects[0] in effects;
      assert forall e :: e in effects[1..] ==> e in effects;
      KindsNone(effects[1..]);
    }
  }

  /** The kinds in the extract-to-cleanup stage: `between` is all its chmods and
      `link` all its links. */
  lemma StageKinds(tar: Effect, between: seq<Effect>, link: seq<Effect>, remove: Effect, linkEffect: Effect)
    requires tar.RunTar? && remove.Remove? && linkEffect.CreateSymlink?
    requires between == [] || (|between| == 1 && between[0].SetMode?)
    requires link == [] || link == [linkEffect]
    ensures Chmods([tar] + between + ([QueryGlobalBin] + link + [remove])) == between
    ensures Links([tar] + between + ([QueryGlobalBin] + link + [remove])) == link
  {
    KindsAppend([tar] + between, [QueryGlobalBin] + link + [remove]);
    KindsAppend([tar], between);
    KindsAppend([QueryGlobalBin] + link, [remove]);
    KindsAppend([QueryGlobalBin], link);
    KindsOfOne(tar);
    KindsOfOne(remove);
    KindsOfOne(QueryGlobalBin);
    KindsOfOne(linkEffect);
    if between != [] {
      assert between == [between[0]];
      KindsOfOne(between[0]);
    }
  }

  /** The archive is a regular file at the download destination. */
  predicate ArchiveReady(d: Disk, packageDir: Path) {
    TempFile(packageDir) in d.nodes && d.nodes[TempFile(packageDir)].File?
  }

  lemma ArchiveNotUnpacked(packageDir: Path, entries: map<string, Entry>)
    ensures TempFile(packageDir) !in Written(BinDir(packageDir), entries)
  {
    forall name | name in entries
      ensures Join(BinDir(packageDir), name) != TempFile(packageDir)
    {
      ArchiveNeverOverwritten(packageDir, name, "");
    }
  }

  lemma BinaryUnpackedIff(packageDir: Path, entries: map<string, Entry>)
    ensures BinaryPath(packageDir) in Written(BinDir(packageDir), entries) <==> BinaryName in entries
  {
    JoinInjective(BinDir(packageDir));
    if BinaryName in entries {
      assert Join(BinDir(packageDir), BinaryName) in Written(BinDir(packageDir), entries);
    }
  }

  /** Extraction and chmod leave the archive in place. */
  lemma UnpackKeepsArchive(d: Disk, packageDir: Path, entries: map<string, Entry>)
    requires ArchiveReady(d, packageDir)
    ensures ArchiveReady(d.Unpack(BinDir(packageDir), entries), packageDir)
    ensures ArchiveReady(d.Unpack(BinDir(packageDir), entries).Chmod(BinaryPath(packageDir), ExecutableMode), packageDir)
  {
    UnpackWrites(d, BinDir(packageDir), entries);
    UnpackKeeps(d, BinDir(packageDir), entries);
    ArchiveNotUnpacked(packageDir, entries);
  }

  /** With the archive in place, the link and cleanup steps always end in success. */
  lemma CompleteInstalls(d: Disk, env: Env)
    requires ArchiveReady(d, env.packageDir)
    ensures Complete(d, env).result == Installed(BinaryPath(env.packageDir))
  {
    var binaryPath := BinaryPath(env.packageDir);
    ArchiveNeverOverwritten(env.packageDir, "", GlobalDir(env.npmBinOutput));
    LinkGlobalFrame(d, binaryPath, env.npmBinOutput, env.globalDirWritable);
  }

  /** The link the link step makes on `d`, if any. */
  function LinkStep(d: Disk, env: Env): seq<Effect> {
    if LinkGlobal(d, BinaryPath(env.packageDir), env.npmBinOutput, env.globalDirWritable).result
    then [CreateSymlink(BinaryPath(env.packageDir), GlobalLink(env))]
    else []
  }

  /** With the archive in place, the link and cleanup steps query npm, maybe link
      (only when npm printed a non-empty directory that accepts the link), and
      remove the archive, in that order. */
  lemma CompleteEffects(d: Disk, env: Env)
    requires ArchiveReady(d, env.packageDir)
    ensures Complete(d, env).effects == [QueryGlobalBin] + LinkStep(d, env) + [Remove(TempFile(env.packageDir))]
    ensures LinkStep(d, env) != [] ==>
              env.npmBinOutput.Some? && GlobalDir(env.npmBinOutput) != "" && env.globalDirWritable
  {
    var binaryPath := BinaryPath(env.packageDir);
    ArchiveNeverOverwritten(env.packageDir, "", GlobalDir(env.npmBinOutput));
    LinkGlobalFrame(d, binaryPath, env.npmBinOutput, env.globalDirWritable);
    LinkGlobalCreatesLinkExactlyWhen(d, binaryPath, env.npmBinOutput, env.globalDirWritable);
  }

  /** With the archive in place, the link and cleanup steps remove the archive and
      keep every other entry and mode they find. */
  lemma CompleteDisk(d: Disk, env: Env)
    requires ArchiveReady(d, env.packageDir)
    ensures TempFile(env.packageDir) !in Complete(d, env).disk.nodes
    ensures forall p :: p in d.nodes && p != TempFile(env.packageDir) ==>
              p in Complete(d, env).disk.nodes && Complete(d, env).disk.nodes[p] == d.nodes[p]
    ensures Complete(d, env).disk.modes == d.modes - {TempFile(env.packageDir)}
  {
    var binaryPath := BinaryPath(env.packageDir);
    ArchiveNeverOverwritten(env.packageDir, "", GlobalDir(env.npmBinOutput));
    LinkGlobalFrame(d, binaryPath, env.npmBinOutput, env.globalDirWritable);
  }

  /** After a successful download: the outcome of extract, chmod, link and cleanup. */
  lemma FinishResult(d: Disk, env: Env)
    requires ArchiveReady(d, env.packageDir)
    requires BinaryPath(env.packageDir) !in d.nodes
    ensures Finish(d, env).result ==
              if env.tar.TarFailed? then Failed(ExtractFailed(env.tar.message))
              else if env.rawOs != "win32" && BinaryName !in env.tar.entries then Failed(ChmodFailed(BinaryPath(env.packageDir)))
              else Installed(BinaryPath(env.packageDir))
  {
    var packageDir := env.packageDir;
    var binaryPath := BinaryPath(packageDir);
    match env.tar
    case TarFailed(_) =>
    case Extracted(entries) =>
      var unpacked := d.Unpack(BinDir(packageDir), entries);
      UnpackWrites(d, BinDir(packageDir), entries);
      ArchiveNotUnpacked(packageDir, entries);
      BinaryUnpackedIff(packageDir, entries);
      assert ArchiveReady(unpacked, packageDir);
      assert binaryPath in unpacked.nodes <==> BinaryName in entries;
      if env.rawOs == "win32" {
        CompleteInstalls(unpacked, env);
      } else if binaryPath in unpacked.nodes {
        CompleteInstalls(unpacked.Chmod(binaryPath, ExecutableMode), env);
      }
  }

  /** The layout of a run from the download on: tar, and then in a successful
      run only, the chmod step, the npm query, `link`, and the archive's removal;
      `link` is empty or the one link that is allowed. */
  ghost predicate Laid(effects: seq<Effect>, installed: bool, env: Env, link: seq<Effect>) {
    && (link == [] || (link == [CreateSymlink(BinaryPath(env.packageDir), GlobalLink(env))]
                       && env.npmBinOutput.Some? && GlobalDir(env.npmBinOutput) != "" && env.globalDirWritable))
    && effects == [RunTar(TempFile(env.packageDir), BinDir(env.packageDir))]
         + if installed then ChmodStep(env) + ([QueryGlobalBin] + link + [Remove(TempFile(env.packageDir))]) else []
  }

  /** The link and cleanup steps, after tar and the chmod step, have that layout. */
  lemma CompleteLaid(x: Disk, env: Env)
    requires ArchiveReady(x, env.packageDir)
    ensures Laid([RunTar(TempFile(env.packageDir), BinDir(env.packageDir))] + ChmodStep(env) + Complete(x, env).effects,
                 true, env, LinkStep(x, env))
  {
    CompleteEffects(x, env);
    var tar := RunTar(TempFile(env.packageDir), BinDir(env.packageDir));
    var rest := [QueryGlobalBin] + LinkStep(x, env) + [Remove(TempFile(env.packageDir))];
    assert [tar] + ChmodStep(env) + rest == [tar] + (ChmodStep(env) + rest);
  }

  /** The chmods and links of a laid-out run. */
  lemma LaidKinds(effects: seq<Effect>, installed: bool, env: Env, link: seq<Effect>)
    requires Laid(effects, installed, env, link)
    ensures Chmods(effects) == if installed then ChmodStep(env) else []
    ensures Links(effects) <= [CreateSymlink(BinaryPath(env.packageDir), GlobalLink(env))]
    ensures Links(effects) != [] ==>
              installed && env.npmBinOutput.Some? && GlobalDir(env.npmBinOutput) != "" && env.globalDirWritable
  {
    var tar := RunTar(TempFile(env.packageDir), BinDir(env.packageDir));
    var remove := Remove(TempFile(env.packageDir));
    if installed {
      assert effects == [tar] + ChmodStep(env) + ([QueryGlobalBin] + link + [remove]);
      StageKinds(tar, ChmodStep(env), link, remove, CreateSymlink(BinaryPath(env.packageDir), GlobalLink(env)));
    } else {
      assert effects == [tar];
      KindsOfOne(tar);
    }
  }

  /** The order of a laid-out successful run. */
  lemma LaidOrder(effects: seq<Effect>, env: Env, link: seq<Effect>)
    requires Laid(effects, true, env, link)
    ensures |effects| >= |ChmodStep(env)| + 3
    ensures effects[..|ChmodStep(env)| + 2] == [RunTar(TempFile(env.packageDir), BinDir(env.packageDir))] + ChmodStep(env) + [QueryGlobalBin]
    ensures EndsWith(effects, Remove(TempFile(env.packageDir)))
  {
    var tar := RunTar(TempFile(env.packageDir), BinDir(env.packageDir));
    var remove := Remove(TempFile(env.packageDir));
    StageLayout(tar, ChmodStep(env), [QueryGlobalBin] + link + [remove], QueryGlobalBin, remove);
  }

  /** Every run from the download on has that layout. */
  lemma FinishShape(d: Disk, env: Env)
    requires ArchiveReady(d, env.packageDir)
    ensures exists link :: Laid(Finish(d, env).effects, Finish(d, env).result.Installed?, env, link)
  {
    var packageDir := env.packageDir;
    var tar := RunTar(TempFile(packageDir), BinDir(packageDir));
    match env.tar
    case TarFailed(_) =>
      assert Finish(d, env).effects == [tar] + [];
      assert Laid(Finish(d, env).effects, Finish(d, env).result.Installed?, env, []);
    case Extracted(entries) =>
      if env.rawOs == "win32" {
        WindowsFinishShape(d, env);
      } else if BinaryPath(packageDir) in d.Unpack(BinDir(packageDir), entries).nodes {
        ChmodFinishShape(d, env);
      } else {
        assert Finish(d, env).effects == [tar] + [];
        assert Laid(Finish(d, env).effects, Finish(d, env).result.Installed?, env, []);
      }
  }

  /** On Windows an extracted archive goes straight to the link and cleanup step. */
  lemma WindowsFinishShape(d: Disk, env: Env)
    requires ArchiveReady(d, env.packageDir)
    requires env.tar.Extracted? && env.rawOs == "win32"
    ensures Laid(Finish(d, env).effects, Finish(d, env).result.Installed?, env,
                 LinkStep(d.Unpack(BinDir(env.packageDir), env.tar.entries), env))
  {
    var packageDir := env.packageDir;
    var unpacked := d.Unpack(BinDir(packageDir), env.tar.entries);
    UnpackKeepsArchive(d, packageDir, env.tar.entries);
    CompleteInstalls(unpacked, env);
    CompleteLaid(unpacked, env);
    assert [RunTar(TempFile(packageDir), BinDir(packageDir))] + ChmodStep(env) == [RunTar(TempFile(packageDir), BinDir(packageDir))];
  }

  /** Off Windows, an archive that yields the binary is followed by the chmod,
      then the link and cleanup step. */
  lemma ChmodFinishShape(d: Disk, env: Env)
    requires ArchiveReady(d, env.packageDir)
    requires env.tar.Extracted? && env.rawOs != "win32"
    requires BinaryPath(env.packageDir) in d.Unpack(BinDir(env.packageDir), env.tar.entries).nodes
    ensures Laid(Finish(d, env).effects, Finish(d, env).result.Installed?, env,
                 LinkStep(d.Unpack(BinDir(env.packageDir), env.tar.entries).Chmod(BinaryPath(env.packageDir), ExecutableMode), env))
  {
    var packageDir := env.packageDir;
    var unpacked := d.Unpack(BinDir(packageDir), env.tar.entries);
    UnpackKeepsArchive(d, packageDir, env.tar.entries);
    var executable := unpacked.Chmod(BinaryPath(packageDir), ExecutableMode);
    CompleteInstalls(executable, env);
    CompleteLaid(executable, env);
  }

  /** After a successful download: tar comes first, and the archive is removed
      only on success. */
  lemma FinishEffects(d: Disk, env: Env)
    requires ArchiveReady(d, env.packageDir)
    ensures |Finish(d, env).effects| >= 1 && Finish(d, env).effects[0] == RunTar(TempFile(env.packageDir), BinDir(env.packageDir))
    ensures Remove(TempFile(env.packageDir)) in Finish(d, env).effects ==> Finish(d, env).result.Installed?
  {
    FinishShape(d, env);
  }

  /** After a successful download: chmod of the binary to 0o755 happens exactly in
      the successful runs off Windows; at most one link is made, `<npm bin -g>/sl`
      to the binary, and only in a successful run where npm printed a non-empty
      directory that accepts it. */
  lemma FinishKinds(d: Disk, env: Env)
    requires ArchiveReady(d, env.packageDir)
    ensures Chmods(Finish(d, env).effects) == if Finish(d, env).result.Installed? then ChmodStep(env) else []
    ensures Links(Finish(d, env).effects) <= [CreateSymlink(BinaryPath(env.packageDir), GlobalLink(env))]
    ensures Links(Finish(d, env).effects) != [] ==>
              Finish(d, env).result.Installed?
              && env.npmBinOutput.Some? && GlobalDir(env.npmBinOutput) != "" && env.globalDirWritable
  {
    FinishShape(d, env);
    var link :| Laid(Finish(d, env).effects, Finish(d, env).result.Installed?, env, link);
    LaidKinds(Finish(d, env).effects, Finish(d, env).result.Installed?, env, link);
  }

  /** After a successful download that ends in success: tar first, then the chmod
      step, then the npm query, and the archive's removal last. */
  lemma FinishOrder(d: Disk, env: Env)
    requires ArchiveReady(d, env.packageDir)
    requires Finish(d, env).result.Installed?
    ensures |Finish(d, env).effects| >= |ChmodStep(env)| + 3
    ensures Finish(d, env).effects[..|ChmodStep(env)| + 2] == [RunTar(TempFile(env.packageDir), BinDir(env.packageDir))] + ChmodStep(env) + [QueryGlobalBin]
    ensures EndsWith(Finish(d, env).effects, Remove(TempFile(env.packageDir)))
  {
    FinishShape(d, env);
    var link :| Laid(Finish(d, env).effects, Finish(d, env).result.Installed?, env, link);
    LaidOrder(Finish(d, env).effects, env, link);
  }

  /** A stage made of `tar`, `between` and a step that starts with `query` and ends
      with `last` has that layout. */
  lemma StageLayout(tar: Effect, between: seq<Effect>, rest: seq<Effect>, query: Effect, last: Effect)
    requires |rest| >= 2 && rest[0] == query && rest[|rest| - 1] == last
    ensures |[tar] + between + rest| >= |between| + 3
    ensures ([tar] + between + rest)[..|between| + 2] == [tar] + between + [query]
    ensures ([tar] + between + rest)[|[tar] + between + rest| - 1] == last
  {
    var all := [tar] + between + rest;
    assert all[..|between| + 2] == [tar] + between + [query] by {
      assert all[..|between| + 2] == ([tar] + between) + rest[..1];
    }
  }

  /** Extraction and chmod keep every path and the archive; a successful
      preparation off Windows leaves the binary executable. */
  lemma PrepareDisk(d: Disk, env: Env)
    requires ArchiveReady(d, env.packageDir)
    ensures Prepare(d, env).disk.nodes.Keys >= d.nodes.Keys
    ensures ArchiveReady(Prepare(d, env).disk, env.packageDir)
    ensures Prepare(d, env).result.None? && env.rawOs != "win32" ==>
              && BinaryPath(env.packageDir) in Prepare(d, env).disk.nodes
              && BinaryPath(env.packageDir) in Prepare(d, env).disk.modes
              && Prepare(d, env).disk.modes[BinaryPath(env.packageDir)] == ExecutableMode
  {
    var packageDir := env.packageDir;
    match env.tar
    case TarFailed(_) =>
    case Extracted(entries) =>
      UnpackWrites(d, BinDir(packageDir), entries);
      UnpackKeeps(d, BinDir(packageDir), entries);
      ArchiveNotUnpacked(packageDir, entries);
  }

  /** After a successful download: what extract, chmod, link and cleanup leave on disk. */
  lemma FinishDisk(d: Disk, env: Env)
    requires ArchiveReady(d, env.packageDir)
    ensures Finish(d, env).result.Failed? ==> Finish(d, env).disk.nodes.Keys >= d.nodes.Keys
    ensures Finish(d, env).result.Installed? ==>
              && TempFile(env.packageDir) !in Finish(d, env).disk.nodes
              && (forall p :: p in d.nodes && p != TempFile(env.packageDir) ==> p in Finish(d, env).disk.nodes)
    ensures Finish(d, env).result.Installed? && env.rawOs != "win32" ==>
              && BinaryPath(env.packageDir) in Finish(d, env).disk.nodes
              && BinaryPath(env.packageDir) in Finish(d, env).disk.modes
              && Finish(d, env).disk.modes[BinaryPath(env.packageDir)] == ExecutableMode
  {
    var prepared := Prepare(d, env);
    PrepareDisk(d, env);
    if prepared.result.None? {
      LayoutDistinct(env.packageDir);
      CompleteInstalls(prepared.disk, env);
      CompleteDisk(prepared.disk, env);
    }
  }

  /** The outcome of a run is the one `Decision` gives: the model's run and the
      decision table agree on every input. */
  lemma InstallDecides(d: Disk, env: Env)
    requires Settles(env.replies)
    ensures InstallRun(d, env).result == Decision(BinaryPath(env.packageDir) in d.nodes, env)
  {
    match GetPlatform(env.rawOs, env.rawArch)
    case Err(_) =>
    case Ok(platform) =>
      var packageDir := env.packageDir;
      var binDir := BinDir(packageDir);
      var ready := if binDir in d.nodes then d else d.MakeDir(binDir);
      LayoutDistinct(packageDir);
      assert BinaryPath(packageDir) in ready.nodes <==> BinaryPath(packageDir) in d.nodes;
      if BinaryPath(packageDir) !in d.nodes {
        var url := BinaryUrl(env.version, platform.platform, platform.arch);
        var fetched := Download(ready, url, TempFile(packageDir), env.replies);
        DownloadOutcome(ready, url, TempFile(packageDir), env.replies);
        if fetched.result.Ok? {
          SameExceptAt(fetched.disk, ready, TempFile(packageDir), BinaryPath(packageDir));
          FinishResult(fetched.disk, env);
        }
      }
  }

  /** The best-effort link step never changes the outcome: runs that differ only in
      what `npm bin -g` prints and whether its directory accepts the link end alike. */
  lemma LinkStepNeverChangesOutcome(d: Disk, env: Env, npmBinOutput: Option<string>, writable: bool)
    requires Settles(env.replies)
    ensures InstallRun(d, env).result
            == InstallRun(d, env.(npmBinOutput := npmBinOutput, globalDirWritable := writable)).result
  {
    var other := env.(npmBinOutput := npmBinOutput, globalDirWritable := writable);
    InstallDecides(d, env);
    InstallDecides(d, other);
    DecisionIgnoresLink(BinaryPath(env.packageDir) in d.nodes, env, other);
  }

  lemma DecisionIgnoresLink(binaryPresent: bool, env: Env, other: Env)
    requires Settles(env.replies)
    requires other == env.(npmBinOutput := other.npmBinOutput, globalDirWritable := other.globalDirWritable)
    ensures Decision(binaryPresent, env) == Decision(binaryPresent, other)
  {
  }

  /** The process exits with status 1 exactly on the fatal outcomes of the decision table. */
  lemma ExitStatusFollowsDecision(d: Disk, env: Env)
    requires Settles(env.replies)
    ensures ExitStatus(InstallRun(d, env).result) == 1 <==>
              || GetPlatform(env.rawOs, env.rawArch).Err?
              || (BinaryPath(env.packageDir) !in d.nodes
                  && (FinalReply(env.replies).TransportFailure? || FinalReply(env.replies).Rejected?
                      || FinalReply(env.replies).status != 200
                      || env.tar.TarFailed? || (env.rawOs != "win32" && BinaryName !in env.tar.entries)))
  {
    InstallDecides(d, env);
  }

  /** An unsupported platform fails before anything is touched, even when the
      binary is already installed. */
  lemma UnsupportedPlatformStopsFirst(d: Disk, env: Env)
    requires Settles(env.replies)
    requires GetPlatform(env.rawOs, env.rawArch).Err?
    ensures InstallRun(d, env) == Run(Failed(Unsupported(UnsupportedPlatform(env.rawOs, env.rawArch))), d, [])
    ensures InstallRun(d, env).result.error.Message() == "Unsupported platform: " + env.rawOs + " " + env.rawArch
  {
  }

  /** With the binary already present, the run succeeds after at most creating the
      bin directory: no download, extraction, chmod, link or removal. */
  lemma ExistingBinaryShortCircuits(d: Disk, env: Env)
    requires Settles(env.replies)
    requires GetPlatform(env.rawOs, env.rawArch).Ok?
    requires BinaryPath(env.packageDir) in d.nodes
    ensures InstallRun(d, env).result == AlreadyInstalled
    ensures InstallRun(d, env).effects == if BinDir(env.packageDir) in d.nodes then [] else [MakeDir(BinDir(env.packageDir))]
    ensures SameExcept(InstallRun(d, env).disk, d, BinDir(env.packageDir))
    ensures BinDir(env.packageDir) in InstallRun(d, env).disk.nodes
  {
    LayoutDistinct(env.packageDir);
  }

  /** `request` comes before `tar`, which is followed by exactly `between` and
      then `query`. */
  ghost predicate Ordered(effects: seq<Effect>, request: Effect, tar: Effect, between: seq<Effect>, query: Effect) {
    exists pre, mid, post :: effects == pre + [request] + mid + [tar] + between + [query] + post
  }

  /** Effects logged before a run do not disturb the order of its steps. */
  lemma OrderedAfterPrefix(made: seq<Effect>, effects: seq<Effect>, request: Effect, tar: Effect, between: seq<Effect>, query: Effect)
    requires Ordered(effects, request, tar, between, query)
    ensures Ordered(made + effects, request, tar, between, query)
  {
    var pre, mid, post :| effects == pre + [request] + mid + [tar] + between + [query] + post;
    assert made + effects == (made + pre) + [request] + mid + [tar] + between + [query] + post;
  }

  /** A download whose second effect is the request, followed by a stage that
      starts with tar, `between` and the query, is in order. */
  lemma OrderedAcrossStages(download: seq<Effect>, stage: seq<Effect>, request: Effect, tar: Effect, between: seq<Effect>, query: Effect)
    requires |download| >= 2 && download[1] == request
    requires |stage| >= |between| + 2 && stage[..|between| + 2] == [tar] + between + [query]
    ensures Ordered(download + stage, request, tar, between, query)
  {
    var pre, mid, post := download[..1], download[2..], stage[|between| + 2..];
    assert download == pre + [request] + mid;
    assert stage == stage[..|between| + 2] + post;
    assert download + stage == pre + [request] + mid + [tar] + between + [query] + post;
  }

  /** What comes between tar and the npm query in a successful run. */
  function ChmodStep(env: Env): seq<Effect> {
    if env.rawOs != "win32" then [SetMode(BinaryPath(env.packageDir), ExecutableMode)] else []
  }

  /** The order of a successful run's steps: the request for the release URL,
      then tar, then the npm query, with exactly the chmod (off Windows) or
      nothing (on Windows) between tar and the query. */
  ghost predicate InOrder(effects: seq<Effect>, env: Env) {
    Ordered(effects, Get(BinaryUrl(env.version, "macos", "arm64")),
            RunTar(TempFile(env.packageDir), BinDir(env.packageDir)), ChmodStep(env), QueryGlobalBin)
  }

  /** A successful run from the download on: the request, tar, chmod (off
      Windows) and the npm query come in that order. */
  lemma ProvisionOrder(d: Disk, env: Env, platform: Platform)
    requires Settles(env.replies)
    requires Provision(d, env, platform).result.Installed?
    ensures InOrder(Provision(d, env, platform).effects, env)
  {
    var url := BinaryUrl(env.version, platform.platform, platform.arch);
    BinaryUrlIgnoresPlatform(env.version, platform.platform, platform.arch);
    var temp := TempFile(env.packageDir);
    var fetched := Download(d, url, temp, env.replies);
    DownloadOutcome(d, url, temp, env.replies);
    assert fetched.effects[1] == fetched.effects[..2][1];
    var rest := Finish(fetched.disk, env);
    assert fetched.result.Ok? && rest.result.Installed?;
    FinishOrder(fetched.disk, env);
    OrderedAcrossStages(fetched.effects, rest.effects, Get(url), RunTar(temp, BinDir(env.packageDir)), ChmodStep(env), QueryGlobalBin);
  }

  /** A successful run from the download on removes the archive as its last
      effect. */
  lemma ProvisionCleansUp(d: Disk, env: Env, platform: Platform)
    requires Settles(env.replies)
    requires Provision(d, env, platform).result.Installed?
    ensures EndsWith(Provision(d, env, platform).effects, Remove(TempFile(env.packageDir)))
  {
    var url := BinaryUrl(env.version, platform.platform, platform.arch);
    var temp := TempFile(env.packageDir);
    var fetched := Download(d, url, temp, env.replies);
    DownloadOutcome(d, url, temp, env.replies);
    var rest := Finish(fetched.disk, env);
    assert fetched.result.Ok? && rest.result.Installed?;
    FinishOrder(fetched.disk, env);
    LastAfterPrefix(fetched.effects, rest.effects, Remove(temp));
  }

  /** A successful run from the download on leaves no archive behind. */
  lemma ProvisionLeavesNoArchive(d: Disk, env: Env, platform: Platform)
    requires Settles(env.replies)
    requires Provision(d, env, platform).result.Installed?
    ensures TempFile(env.packageDir) !in Provision(d, env, platform).disk.nodes
  {
    var url := BinaryUrl(env.version, platform.platform, platform.arch);
    var temp := TempFile(env.packageDir);
    var fetched := Download(d, url, temp, env.replies);
    DownloadOutcome(d, url, temp, env.replies);
    assert fetched.result.Ok? && Finish(fetched.disk, env).result.Installed?;
    FinishDisk(fetched.disk, env);
  }

  /** A successful run found a supported platform and no binary, and is the
      bin directory's creation (when missing) followed by `Provision`. */
  lemma InstalledRunProvisions(d: Disk, env: Env)
    requires Settles(env.replies)
    requires InstallRun(d, env).result.Installed?
    ensures GetPlatform(env.rawOs, env.rawArch).Ok?
    ensures BinaryPath(env.packageDir) !in d.nodes
    ensures var binDir := BinDir(env.packageDir);
            var ready := if binDir in d.nodes then d else d.MakeDir(binDir);
            var made := if binDir in d.nodes then [] else [MakeDir(binDir)];
            var rest := Provision(ready, env, GetPlatform(env.rawOs, env.rawArch).value);
            && rest.result.Installed?
            && InstallRun(d, env).effects == made + rest.effects
            && InstallRun(d, env).disk == rest.disk
  {
  }

  /** Everything a successful full run does, in order: the request for the release
      URL, then tar, then chmod (off Windows only), then the npm query. */
  lemma InstalledRunOrder(d: Disk, env: Env)
    requires Settles(env.replies)
    requires InstallRun(d, env).result.Installed?
    ensures InOrder(InstallRun(d, env).effects, env)
  {
    InstalledRunProvisions(d, env);
    var binDir := BinDir(env.packageDir);
    var ready := if binDir in d.nodes then d else d.MakeDir(binDir);
    var made := if binDir in d.nodes then [] else [MakeDir(binDir)];
    var platform := GetPlatform(env.rawOs, env.rawArch).value;
    ProvisionOrder(ready, env, platform);
    OrderedAfterPrefix(made, Provision(ready, env, platform).effects, Get(BinaryUrl(env.version, "macos", "arm64")),
                       RunTar(TempFile(env.packageDir), BinDir(env.packageDir)), ChmodStep(env), QueryGlobalBin);
  }

  /** A successful run removes the archive as its last effect. */
  lemma InstalledRunCleansUp(d: Disk, env: Env)
    requires Settles(env.replies)
    requires InstallRun(d, env).result.Installed?
    ensures EndsWith(InstallRun(d, env).effects, Remove(TempFile(env.packageDir)))
  {
    InstalledRunProvisions(d, env);
    var binDir := BinDir(env.packageDir);
    var ready := if binDir in d.nodes then d else d.MakeDir(binDir);
    var made := if binDir in d.nodes then [] else [MakeDir(binDir)];
    var platform := GetPlatform(env.rawOs, env.rawArch).value;
    ProvisionCleansUp(ready, env, platform);
    LastAfterPrefix(made, Provision(ready, env, platform).effects, Remove(TempFile(env.packageDir)));
  }

  /** A successful run leaves no archive behind. */
  lemma InstalledRunLeavesNoArchive(d: Disk, env: Env)
    requires Settles(env.replies)
    requires InstallRun(d, env).result.Installed?
    ensures TempFile(env.packageDir) !in InstallRun(d, env).disk.nodes
  {
    InstalledRunProvisions(d, env);
    var binDir := BinDir(env.packageDir);
    var ready := if binDir in d.nodes then d else d.MakeDir(binDir);
    ProvisionLeavesNoArchive(ready, env, GetPlatform(env.rawOs, env.rawArch).value);
  }

  /** `effects` is non-empty and `e` is its last element. */
  predicate EndsWith(effects: seq<Effect>, e: Effect) {
    0 < |effects| && effects[|effects| - 1] == e
  }

  lemma LastAfterPrefix(a: seq<Effect>, b: seq<Effect>, e: Effect)
    requires EndsWith(b, e)
    ensures EndsWith(a + b, e)
  {
  }

  /** A download neither changes a mode nor makes a link. */
  lemma DownloadKinds(d: Disk, url: string, dest: Path, replies: seq<Reply>)
    requires Settles(replies)
    ensures Chmods(Download(d, url, dest, replies).effects) == []
    ensures Links(Download(d, url, dest, replies).effects) == []
  {
    DownloadTouchesOnlyDest(d, url, dest, replies);
    KindsNone(Download(d, url, dest, replies).effects);
  }

  /** From the download on, chmod happens exactly in the successful runs off Windows. */
  lemma ProvisionChmods(d: Disk, env: Env, platform: Platform)
    requires Settles(env.replies)
    ensures Chmods(Provision(d, env, platform).effects)
            == if Provision(d, env, platform).result.Installed? then ChmodStep(env) else []
  {
    var url := BinaryUrl(env.version, platform.platform, platform.arch);
    var temp := TempFile(env.packageDir);
    var fetched := Download(d, url, temp, env.replies);
    DownloadKinds(d, url, temp, env.replies);
    if fetched.result.Ok? {
      DownloadOutcome(d, url, temp, env.replies);
      FinishKinds(fetched.disk, env);
      KindsAppend(fetched.effects, Finish(fetched.disk, env).effects);
    }
  }

  /** From the download on, at most the one allowed link is made, and only in a
      successful run. */
  lemma ProvisionLinks(d: Disk, env: Env, platform: Platform)
    requires Settles(env.replies)
    ensures Links(Provision(d, env, platform).effects) <= [CreateSymlink(BinaryPath(env.packageDir), GlobalLink(env))]
    ensures Links(Provision(d, env, platform).effects) != [] ==>
              Provision(d, env, platform).result.Installed?
              && env.npmBinOutput.Some? && GlobalDir(env.npmBinOutput) != "" && env.globalDirWritable
  {
    var url := BinaryUrl(env.version, platform.platform, platform.arch);
    var temp := TempFile(env.packageDir);
    var fetched := Download(d, url, temp, env.replies);
    DownloadKinds(d, url, temp, env.replies);
    if fetched.result.Ok? {
      DownloadOutcome(d, url, temp, env.replies);
      FinishKinds(fetched.disk, env);
      KindsAppend(fetched.effects, Finish(fetched.disk, env).effects);
    }
  }

  /** Creating the bin directory first adds no chmod and no link. */
  lemma KindsAfterMkdir(made: seq<Effect>, effects: seq<Effect>)
    requires made == [] || (|made| == 1 && made[0].MakeDir?)
    ensures Chmods(made + effects) == Chmods(effects) && Links(made + effects) == Links(effects)
  {
    KindsAppend(made, effects);
    if made != [] {
      assert made == [made[0]];
      KindsOfOne(made[0]);
    }
  }

  /** chmod happens exactly once in a successful run off Windows, on the binary
      with 0o755, and never in any other run. */
  lemma ChmodOnlyOffWindows(d: Disk, env: Env)
    requires Settles(env.replies)
    ensures Chmods(InstallRun(d, env).effects)
            == if InstallRun(d, env).result.Installed? && env.rawOs != "win32"
               then [SetMode(BinaryPath(env.packageDir), ExecutableMode)] else []
  {
    match GetPlatform(env.rawOs, env.rawArch)
    case Err(_) =>
    case Ok(platform) =>
      var binDir := BinDir(env.packageDir);
      var ready := if binDir in d.nodes then d else d.MakeDir(binDir);
      var made := if binDir in d.nodes then [] else [MakeDir(binDir)];
      if BinaryPath(env.packageDir) in ready.nodes {
        KindsAfterMkdir(made, []);
      } else {
        ProvisionChmods(ready, env, platform);
        KindsAfterMkdir(made, Provision(ready, env, platform).effects);
      }
  }

  /** At most one link is made, `<npm bin -g>/sl` to the installed binary, and only
      in a successful run where npm printed a non-empty directory that accepts it. */
  lemma SymlinkOnlyWhenAllowed(d: Disk, env: Env)
    requires Settles(env.replies)
    ensures Links(InstallRun(d, env).effects) <= [CreateSymlink(BinaryPath(env.packageDir), GlobalLink(env))]
    ensures Links(InstallRun(d, env).effects) != [] ==>
              InstallRun(d, env).result.Installed?
              && env.npmBinOutput.Some? && GlobalDir(env.npmBinOutput) != "" && env.globalDirWritable
  {
    match GetPlatform(env.rawOs, env.rawArch)
    case Err(_) =>
    case Ok(platform) =>
      var binDir := BinDir(env.packageDir);
      var ready := if binDir in d.nodes then d else d.MakeDir(binDir);
      var made := if binDir in d.nodes then [] else [MakeDir(binDir)];
      if BinaryPath(env.packageDir) in ready.nodes {
        KindsAfterMkdir(made, []);
      } else {
        ProvisionLinks(ready, env, platform);
        KindsAfterMkdir(made, Provision(ready, env, platform).effects);
      }
  }

  /** After a successful run off Windows the binary exists with mode 0o755. */
  lemma InstalledBinaryExecutable(d: Disk, env: Env)
    requires Settles(env.replies)
    requires InstallRun(d, env).result.Installed? && env.rawOs != "win32"
    ensures BinaryPath(env.packageDir) in InstallRun(d, env).disk.nodes
    ensures BinaryPath(env.packageDir) in InstallRun(d, env).disk.modes
            && InstallRun(d, env).disk.modes[BinaryPath(env.packageDir)] == ExecutableMode
  {
    InstalledRunProvisions(d, env);
    var platform := GetPlatform(env.rawOs, env.rawArch).value;
    var binDir := BinDir(env.packageDir);
    var ready := if binDir in d.nodes then d else d.MakeDir(binDir);
    var url := BinaryUrl(env.version, platform.platform, platform.arch);
    var fetched := Download(ready, url, TempFile(env.packageDir), env.replies);
    DownloadOutcome(ready, url, TempFile(env.packageDir), env.replies);
    FinishDisk(fetched.disk, env);
  }

  /** The archive is removed by the cleanup step only on success. A failed run
      removes it only when the request itself errored; after a failed status, a
      failed extraction or a failed chmod it is left on disk. */
  lemma ArchiveKeptOnFailure(d: Disk, env: Env)
    requires Settles(env.replies)
    ensures InstallRun(d, env).result.Failed? && Remove(TempFile(env.packageDir)) in InstallRun(d, env).effects ==>
              FinalReply(env.replies).TransportFailure?
              && InstallRun(d, env).result == Failed(FetchFailed(TransportError(FinalReply(env.replies).message)))
    ensures InstallRun(d, env).result.Failed? && !InstallRun(d, env).result.error.Unsupported?
            && !(InstallRun(d, env).result.error.FetchFailed? && InstallRun(d, env).result.error.fetchError.TransportError?) ==>
              TempFile(env.packageDir) in InstallRun(d, env).disk.nodes
  {
    InstallDecides(d, env);
    match GetPlatform(env.rawOs, env.rawArch)
    case Err(_) =>
    case Ok(platform) =>
      var packageDir := env.packageDir;
      var binDir := BinDir(packageDir);
      var ready := if binDir in d.nodes then d else d.MakeDir(binDir);
      LayoutDistinct(packageDir);
      if BinaryPath(packageDir) !in ready.nodes {
        var url := BinaryUrl(env.version, platform.platform, platform.arch);
        var fetched := Download(ready, url, TempFile(packageDir), env.replies);
        DownloadOutcome(ready, url, TempFile(packageDir), env.replies);
        if fetched.result.Ok? {
          SameExceptAt(fetched.disk, ready, TempFile(packageDir), BinaryPath(packageDir));
          FinishResult(fetched.disk, env);
          FinishEffects(fetched.disk, env);
          FinishDisk(fetched.disk, env);
        }
      }
  }

  /** A second run after a successful one off Windows finds the binary and does
      nothing: no request, no effect, exit status 0. */
  lemma SecondRunIsNoOp(d: Disk, env: Env, again: Env)
    requires Settles(env.replies) && Settles(again.replies)
    requires InstallRun(d, env).result.Installed? && env.rawOs != "win32"
    requires again.packageDir == env.packageDir && GetPlatform(again.rawOs, again.rawArch).Ok?
    ensures InstallRun(InstallRun(d, env).disk, again) == Run(AlreadyInstalled, InstallRun(d, env).disk, [])
  {
    var packageDir := env.packageDir;
    var platform := GetPlatform(env.rawOs, env.rawArch).value;
    var binDir := BinDir(packageDir);
    var ready := if binDir in d.nodes then d else d.MakeDir(binDir);
    LayoutDistinct(packageDir);
    InstallDecides(d, env);
    InstalledBinaryExecutable(d, env);
    var url := BinaryUrl(env.version, platform.platform, platform.arch);
    var fetched := Download(ready, url, TempFile(packageDir), env.replies);
    DownloadOutcome(ready, url, TempFile(packageDir), env.replies);
    SameExceptAt(fetched.disk, ready, TempFile(packageDir), BinaryPath(packageDir));
    SameExceptAt(fetched.disk, ready, TempFile(packageDir), binDir);
    FinishResult(fetched.disk, env);
    FinishDisk(fetched.disk, env);
  }

  /** Linking and cleanup add nothing but the global link. */
  lemma CompleteAddsOnlyLink(d: Disk, env: Env)
    ensures forall p :: p in Complete(d, env).disk.nodes && p !in d.nodes ==> Complete(d, env).disk.nodes[p].Symlink?
  {
  }

  /** After a successful download on Windows, an archive without `sl` still ends
      in success, and no file stands at the binary path. */
  lemma FinishSkipsCheckOnWindows(d: Disk, env: Env)
    requires ArchiveReady(d, env.packageDir) && BinaryPath(env.packageDir) !in d.nodes
    requires env.rawOs == "win32" && env.tar.Extracted? && BinaryName !in env.tar.entries
    ensures Finish(d, env).result == Installed(BinaryPath(env.packageDir))
    ensures !(BinaryPath(env.packageDir) in Finish(d, env).disk.nodes
              && Finish(d, env).disk.nodes[BinaryPath(env.packageDir)].File?)
  {
    var packageDir := env.packageDir;
    var unpacked := d.Unpack(BinDir(packageDir), env.tar.entries);
    UnpackWrites(d, BinDir(packageDir), env.tar.entries);
    UnpackKeepsArchive(d, packageDir, env.tar.entries);
    BinaryUnpackedIff(packageDir, env.tar.entries);
    assert BinaryPath(packageDir) !in unpacked.nodes;
    CompleteInstalls(unpacked, env);
    CompleteAddsOnlyLink(unpacked, env);
  }

  /** From the download on, the same on Windows after a 200 reply. */
  lemma ProvisionSkipsCheckOnWindows(d: Disk, env: Env, platform: Platform)
    requires Settles(env.replies)
    requires env.rawOs == "win32" && BinaryPath(env.packageDir) !in d.nodes
    requires FinalReply(env.replies).Response? && FinalReply(env.replies).status == 200
    requires env.tar.Extracted? && BinaryName !in env.tar.entries
    ensures Provision(d, env, platform).result == Installed(BinaryPath(env.packageDir))
    ensures !(BinaryPath(env.packageDir) in Provision(d, env, platform).disk.nodes
              && Provision(d, env, platform).disk.nodes[BinaryPath(env.packageDir)].File?)
  {
    var url := BinaryUrl(env.version, platform.platform, platform.arch);
    var temp := TempFile(env.packageDir);
    var fetched := Download(d, url, temp, env.replies);
    DownloadOutcome(d, url, temp, env.replies);
    LayoutDistinct(env.packageDir);
    SameExceptAt(fetched.disk, d, temp, BinaryPath(env.packageDir));
    FinishSkipsCheckOnWindows(fetched.disk, env);
  }

  /** On Windows a run reports success without checking that the archive held the
      binary: with no `sl` entry it succeeds and no file stands at the binary path. */
  lemma WindowsSkipsBinaryCheck(d: Disk, env: Env)
    requires Settles(env.replies)
    requires env.rawOs == "win32" && GetPlatform(env.rawOs, env.rawArch).Ok?
    requires BinaryPath(env.packageDir) !in d.nodes
    requires FinalReply(env.replies).Response? && FinalReply(env.replies).status == 200
    requires env.tar.Extracted? && BinaryName !in env.tar.entries
    ensures InstallRun(d, env).result == Installed(BinaryPath(env.packageDir))
    ensures !(BinaryPath(env.packageDir) in InstallRun(d, env).disk.nodes
              && InstallRun(d, env).disk.nodes[BinaryPath(env.packageDir)].File?)
  {
    var binDir := BinDir(env.packageDir);
    var ready := if binDir in d.nodes then d else d.MakeDir(binDir);
    LayoutDistinct(env.packageDir);
    assert BinaryPath(env.packageDir) !in ready.nodes;
    ProvisionSkipsCheckOnWindows(ready, env, GetPlatform(env.rawOs, env.rawArch).value);
  }
}
