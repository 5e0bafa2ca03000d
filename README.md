# script-list npm installer, modelled in Dafny

The `script-list` npm package ships a postinstall script, `npm/install.js`. The
script:

- reads the package version;
- resolves the host's OS and CPU to a release platform name;
- creates the package's `bin` directory;
- stops early when `bin/sl` is already there.

Otherwise it goes on to:

- download the release archive from GitHub, following 301/302 redirects;
- extract the archive with `tar`;
- make the binary executable, except on Windows;
- try to link it into the directory `npm bin -g` names (best effort);
- remove the archive.

Any error thrown along the way makes the process exit with status 1.

The model is made of these modules:

- `PlatformResolver` (`platform.dfy`) models `getPlatform`. It is a pure
  function of the raw `process.platform` and `process.arch` values, returning a
  `Result`.
- `ArtifactLocator` (`artifact.dfy`) models `getBinaryUrl` and the paths the
  installer uses: `bin`, `bin/sl` and `sl.tar.gz` under the package directory.
- `HostFs` (`host.dfy`) is the host:
  - a filesystem value `Disk`, mapping paths to directories, files and
    symlinks, plus permission bits;
  - the log of effects a run performs;
  - a class `Host` whose methods are the Node calls the installer makes
    (`existsSync`, `mkdirSync`, `createWriteStream`, `https.get`, `pipe`,
    `unlink`, `unlinkSync`, `chmodSync`, the `tar` and `npm bin -g`
    subprocesses, `symlinkSync`). Each method updates the host's fields in
    place.
- `Fetcher` (`fetcher.dfy`) models `downloadFile`:
  - `Download` is the function that specifies it, over the list of replies the
    network gives, one per request.
  - `DownloadFile` is the recursive method over `Host`, proved equal to
    `Download`.
- `Provisioner` (`provisioner.dfy`) models `install`:
  - the functions that specify it: `InstallRun`, `Provision`, `Finish`,
    `Prepare`, `Complete` and `LinkGlobal`;
  - the methods `Install`, `ProvisionOn`, `FinishOn`, `PrepareOn`, `CompleteOn` and
    `LinkGlobalBin`, which run over `Host` and are proved to produce exactly
    the result, disk and effect log of their functions.
- `InstallProperties` (`install_properties.dfy`) holds the properties of
  `InstallRun`:
  - the decision table of outcomes;
  - the already-installed short-circuit;
  - chmod only off Windows;
  - the link step never changing the outcome;
  - the order of the steps;
  - cleanup only on success;
  - the exit status;
  - a second run being a no-op.
- `Text` (`text.dfy`) holds JavaScript's `trim` and the decimal rendering of
  status codes.

Everything a run learns from outside its own code is an input, carried by
`Provisioner.Env`:

- the package version (read from `package.json` in the source);
- the package directory (`__dirname`);
- the raw OS and architecture;
- the network's replies, in request order;
- the outcome of `tar`;
- the standard output of `npm bin -g`, or `None` when it throws;
- whether the global directory accepts a new link.

Behaviour of the code worth knowing:

- **No redirect limit.** The code follows any number of 301/302 redirects;
  nothing limits the depth (`npm/install.js:51-54`).
- **Destination after a non-200 status.** A non-200, non-redirect status leaves
  the opened, empty destination file on disk. Only a transport error removes it.
- **A refused redirect target.** When a redirect's `Location` is relative or
  not `https:`, `https.get` throws before sending anything. The promise rejects
  with Node's error, no `unlink` runs, and the emptied destination stays
  (`npm/install.js:49-53`).
- **One archive for every platform.** Both branches of `getBinaryUrl` build the
  macOS arm64 URL (the comment on the fallback says x64).
  `ArtifactLocator.OtherPlatformsGetForeignArtifact` states this.
- **No binary check on Windows.** On Windows a run reports success even when
  the archive held no `sl`. `InstallProperties.WindowsSkipsBinaryCheck` states
  this.

## Model

| member | source | states |
|---|---|---|
| PlatformResolver.GetPlatform | npm/install.js:24-36 | resolution succeeds exactly for OS in {darwin, linux, win32} and arch in {x64, arm64}; the platform is macos/linux/windows and the arch is kept; otherwise the error carries both raw values |
| PlatformResolver.ResolvedOsNames | npm/install.js:13-17 | darwin resolves to macos, linux to linux, win32 to windows |
| PlatformResolver.ResolutionInjective | npm/install.js:13-35 | two raw pairs that resolve to the same platform are the same pair |
| PlatformResolver.PlatformError.Message | npm/install.js:32 | the message is "Unsupported platform: " followed by the raw OS, a space and the raw arch |
| ArtifactLocator.BinaryUrl | npm/install.js:38-45 | `getBinaryUrl`, both of its branches (no contract of its own; `BinaryUrlShape`, `BinaryUrlIgnoresPlatform`, `BinaryUrlIsMacArm64Artifact` and `UrlVersionRoundTrip` state it) |
| ArtifactLocator.BinaryUrlShape | npm/install.js:38-45 | the URL is the release-download prefix, the version, "/sl-v", the version again, then "-macos-arm64.tar.gz" |
| ArtifactLocator.BinaryUrlIgnoresPlatform | npm/install.js:38-45 | the URL does not depend on the platform or the architecture |
| ArtifactLocator.BinaryUrlIsMacArm64Artifact | npm/install.js:40-44 | both branches give the macOS arm64 artifact URL of the version |
| ArtifactLocator.OtherPlatformsGetForeignArtifact | npm/install.js:39-44 | every supported platform other than macOS arm64 is sent an artifact named for another platform |
| ArtifactLocator.UrlVersionRoundTrip | npm/install.js:41 | the version can be read back from the URL, so distinct versions fetch distinct URLs |
| ArtifactLocator.Join | npm/install.js:97 | `path.join` of a directory and a name, without normalisation (no contract of its own; `JoinInjective`, `LayoutDistinct` and `ArchiveNeverOverwritten` state it) |
| ArtifactLocator.BinDir | npm/install.js:10 | `BIN_DIR`, the package's `bin` directory (no contract of its own; `LayoutDistinct` states it) |
| ArtifactLocator.BinaryPath | npm/install.js:97 | `binaryPath`, `sl` in the bin directory (no contract of its own; `LayoutDistinct` states it) |
| ArtifactLocator.TempFile | npm/install.js:107 | `tempFile`, `sl.tar.gz` in the package directory (no contract of its own; `LayoutDistinct` and `ArchiveNeverOverwritten` state it) |
| ArtifactLocator.LayoutDistinct | npm/install.js:97-107 | the bin directory, the binary and the archive are three different paths |
| ArtifactLocator.ArchiveNeverOverwritten | npm/install.js:107-125 | no entry extracted into the bin directory and no `<dir>/sl` link is the archive's path |
| Text.Trim | npm/install.js:123 | `String.prototype.trim` (no contract of its own; `TrimCutsOnlySpace` and `TrimIdempotent` state it) |
| Text.TrimCutsOnlySpace | npm/install.js:123 | `trim` removes only leading and trailing whitespace, and what is left neither starts nor ends with whitespace |
| Text.TrimIdempotent | npm/install.js:123 | trimming a trimmed string changes nothing |
| Text.Decimal | npm/install.js:57 | a status code renders as a non-empty string of digits with no leading zero |
| Text.DecimalRoundTrip | npm/install.js:57 | the rendered digits read back as the status code |
| Fetcher.Redirects | npm/install.js:51 | exactly the responses with status 301 or 302 are followed (no contract of its own; `DownloadOutcome` and `DownloadFollowsLocations` state it) |
| Fetcher.FinalReply | npm/install.js:51-68 | the reply that ends the redirect chain is not a redirect and is one of the replies |
| Fetcher.FetchError.Message | npm/install.js:57 | a failed status reads "Download failed: " followed by the status in decimal digits with no leading zero, which parse back to the status; a transport error or a rejected URL gives Node's own message (lines 53, 67) |
| Fetcher.DownloadFailedMessagesDistinct | npm/install.js:57 | different failing statuses give different "Download failed: <code>" messages |
| Fetcher.Download | npm/install.js:47-70 | a download changes nothing on disk except the destination; a URL that `https.get` rejects ends it after the truncation, with no request and no unlink |
| Fetcher.DownloadOutcome | npm/install.js:47-70 | the reply that ends the chain decides it: 200 succeeds and leaves that body at the destination; another status fails with that code and leaves an empty file; a transport error fails with its message and removes the destination; a rejected URL fails with its message and leaves an empty file; removal happens exactly on a transport error |
| Fetcher.DownloadTouchesOnlyDest | npm/install.js:49-66 | a download opens the destination and then requests the URL, unless `https.get` rejects it, when opening is all it does; after that it only requests, writes the destination or removes it |
| Fetcher.DownloadFollowsLocations | npm/install.js:51-54 | the first request goes to the URL, each later one to the previous redirect's Location, and there is one request per hop up to the final reply, none for a rejected URL |
| Fetcher.DownloadFile | npm/install.js:47-70 | the recursive method returns `Download`'s result and leaves `Download`'s disk and effect log |
| HostFs.Disk.Unpack | npm/install.js:72-77 | the disk after a successful `tar -xzf`: each entry written as a file under the target directory with its own bytes and permission bits (no contract of its own; `UnpackWrites` and `UnpackKeeps` state it) |
| HostFs.UnpackWrites | npm/install.js:72-77 | extraction writes each archive entry as a file under the target directory, with the entry's bytes and permission bits, and adds no other path |
| HostFs.UnpackKeeps | npm/install.js:72-77 | extraction adds modes only for the paths it writes, and keeps the entry and the mode of every other path |
| HostFs.Host.ExistsSync | npm/install.js:93 | true exactly when something is at the path |
| HostFs.Host.MkdirSync | npm/install.js:94 | a directory stands at the path afterwards and the call is logged |
| HostFs.Host.CreateWriteStream | npm/install.js:49 | the destination becomes an empty file, whatever stood there |
| HostFs.Host.HttpsGet | npm/install.js:50 | the request is logged and the disk is unchanged |
| HostFs.Host.PipeBody | npm/install.js:60-63 | the destination holds the response body |
| HostFs.Host.UnlinkQuietly | npm/install.js:66 | removes the entry when it can and ignores failure |
| HostFs.Host.UnlinkSync | npm/install.js:136 | removes a non-directory entry; reports failure otherwise, leaving the disk as it was |
| HostFs.Host.ChmodSync | npm/install.js:118 | sets the mode of an existing path; fails when nothing is there |
| HostFs.Host.ExecTar | npm/install.js:72-77 | the tar run is logged; on success the disk is `Unpack`'s: the entries are written into the directory with their own permission bits; on failure the disk is unchanged |
| HostFs.Host.ExecNpmBinGlobal | npm/install.js:123 | returns the query's output, logs the query and leaves the disk unchanged |
| HostFs.Host.SymlinkSync | npm/install.js:127 | the link is made exactly when the directory exists, accepts it and has nothing at the link's path |
| Provisioner.InstallError.Message | npm/install.js:76 | the printed message is "Failed to extract: " followed by tar's cause; for the other errors it is the platform or download error's own text (lines 32, 57) or Node's ENOENT text for `chmod` or `unlink` followed by the quoted path (lines 118, 136) |
| Provisioner.LinkGlobal | npm/install.js:121-133 | the best-effort link step: the query, then a link only along the one branch of install.js:124-127 that reaches `symlinkSync`; every failure is absorbed (no contract of its own; `LinkGlobalCreatesLinkExactlyWhen` and `LinkGlobalFrame` state it) |
| Provisioner.Complete | npm/install.js:121-136 | the link step followed by `unlinkSync` of the archive, which fails the run when nothing removable is there (stated by `InstallProperties.CompleteInstalls`, `CompleteEffects`, `CompleteDisk`) |
| Provisioner.Prepare | npm/install.js:112-119 | extraction, then chmod to 0o755 off Windows; a tar failure or a missing binary off Windows ends the run (stated through `Finish` by `InstallProperties.FinishResult`, `FinishShape`, `FinishDisk`) |
| Provisioner.Finish | npm/install.js:112-136 | `Prepare`, then `Complete` unless it failed (stated by the `InstallProperties.Finish*` lemmas) |
| Provisioner.Provision | npm/install.js:105-136 | the download into `sl.tar.gz`, then `Finish` unless it failed (stated by the `InstallProperties.Provision*` lemmas) |
| Provisioner.InstallRun | npm/install.js:80-149 | the whole of `install` as a function of the disk and the inputs (stated by `InstallProperties.InstallDecides` and the lemmas after it) |
| Provisioner.GlobalDir | npm/install.js:123 | the trimmed output of `npm bin -g`, empty when the query failed (no contract of its own; `LinkGlobalCreatesLinkExactlyWhen` states it) |
| Provisioner.ExitStatus | npm/install.js:142-148 | the exit status is 1 exactly for a failed run, 0 otherwise |
| Provisioner.LinkGlobalCreatesLinkExactlyWhen | npm/install.js:121-133 | the link is made exactly when npm printed a non-empty existing directory with nothing at `<dir>/sl` that accepts the link; the query is always logged first |
| Provisioner.LinkGlobalFrame | npm/install.js:121-133 | the link step changes no path but the link's own, changes no mode, and keeps every existing entry |
| Provisioner.LinkGlobalBin | npm/install.js:121-133 | the link method leaves `LinkGlobal`'s disk and effect log |
| Provisioner.CompleteOn | npm/install.js:121-136 | the link and cleanup method returns `Complete`'s outcome and leaves `Complete`'s disk and log |
| Provisioner.PrepareOn | npm/install.js:112-119 | the extract and chmod method returns `Prepare`'s failure or `None` and leaves `Prepare`'s disk and log |
| Provisioner.FinishOn | npm/install.js:112-136 | the extract-to-cleanup method returns `Finish`'s outcome and leaves `Finish`'s disk and log |
| Provisioner.ProvisionOn | npm/install.js:105-136 | the download-to-cleanup method returns `Provision`'s outcome and leaves `Provision`'s disk and log |
| Provisioner.Install | npm/install.js:80-149 | `install` returns `InstallRun`'s outcome and leaves `InstallRun`'s disk and effect log |
| InstallProperties.ArchiveNotUnpacked | npm/install.js:107-114 | extraction into the bin directory never writes the archive's path |
| InstallProperties.BinaryUnpackedIff | npm/install.js:97-114 | extraction puts something at the binary path exactly when the archive has an `sl` entry |
| InstallProperties.UnpackKeepsArchive | npm/install.js:114-118 | extraction and chmod leave the downloaded archive in place |
| InstallProperties.CompleteInstalls | npm/install.js:121-136 | with the archive in place, the link and cleanup steps always succeed |
| InstallProperties.CompleteEffects | npm/install.js:121-136 | link and cleanup log the npm query, at most the one link, then the archive's removal; a link is logged only when npm printed a non-empty directory that accepts it |
| InstallProperties.CompleteDisk | npm/install.js:121-136 | link and cleanup remove the archive and its mode and keep every other entry |
| InstallProperties.CompleteAddsOnlyLink | npm/install.js:121-136 | link and cleanup add no path except a symlink |
| InstallProperties.FinishResult | npm/install.js:112-136 | after a successful download: a tar failure fails extraction; off Windows a missing `sl` fails chmod; otherwise the run succeeds |
| InstallProperties.FinishShape | npm/install.js:112-136 | after a successful download the log is tar, then, only on success, the chmod step (off Windows), the npm query, at most the allowed link and the archive's removal |
| InstallProperties.WindowsFinishShape | npm/install.js:112-136 | on Windows an extracted archive gives the run's layout with no chmod step and, as its link, the one the link step makes on the extracted disk |
| InstallProperties.ChmodFinishShape | npm/install.js:112-136 | off Windows, when extraction yields the binary, the run's layout holds with the chmod to 0o755 and, as its link, the one the link step makes on the disk after the chmod |
| InstallProperties.FinishEffects | npm/install.js:112-136 | after a successful download tar is the first effect, and the archive is removed only on success |
| InstallProperties.FinishKinds | npm/install.js:112-133 | after a successful download, chmod of the binary to 0o755 happens exactly on success off Windows, and the one allowed link only on success with a usable npm directory |
| InstallProperties.FinishOrder | npm/install.js:112-136 | a successful run after the download logs tar, the chmod step, the npm query, and the archive's removal last |
| InstallProperties.PrepareDisk | npm/install.js:112-119 | extraction and chmod remove no path and keep the archive; a successful preparation off Windows leaves the binary with mode 0o755 |
| InstallProperties.FinishDisk | npm/install.js:112-136 | a failure removes no path; success removes the archive and no other path; off Windows the binary is left with mode 0o755 |
| InstallProperties.FinishSkipsCheckOnWindows | npm/install.js:114-119 | after a successful download on Windows, an archive without `sl` still succeeds and no file is at the binary path |
| InstallProperties.Decision | npm/install.js:80-149 | the outcome of `install` written as a table over the inputs alone, independent of the run (no contract of its own; `InstallDecides` states it) |
| InstallProperties.InstallDecides | npm/install.js:80-149 | every run's outcome equals the decision table: unsupported platform, already installed, transport error, rejected URL, bad status, tar failure, missing binary off Windows, or installed |
| InstallProperties.LinkStepNeverChangesOutcome | npm/install.js:121-133 | runs that differ only in npm's output and in whether the global directory accepts the link have the same outcome |
| InstallProperties.ExitStatusFollowsDecision | npm/install.js:142-148 | the exit status is 1 exactly when the platform is unsupported, or when the binary was missing and the download, extraction or chmod failed |
| InstallProperties.UnsupportedPlatformStopsFirst | npm/install.js:89 | an unsupported platform fails with "Unsupported platform: <os> <arch>" before touching anything |
| InstallProperties.ExistingBinaryShortCircuits | npm/install.js:92-103 | with the binary present, the run succeeds after at most creating the bin directory: no download, no extraction, no chmod, no link, no removal |
| InstallProperties.DownloadKinds | npm/install.js:47-70 | a download neither changes a mode nor makes a link |
| InstallProperties.ProvisionOrder | npm/install.js:105-127 | from the download on, a successful run requests the release URL, then runs tar, then the chmod step, then the npm query |
| InstallProperties.ProvisionCleansUp | npm/install.js:135-136 | from the download on, a successful run ends with the archive's removal |
| InstallProperties.ProvisionLeavesNoArchive | npm/install.js:135-136 | from the download on, a successful run leaves no archive behind |
| InstallProperties.ProvisionChmods | npm/install.js:116-119 | from the download on, chmod happens exactly on success off Windows |
| InstallProperties.ProvisionLinks | npm/install.js:121-133 | from the download on, at most the one allowed link is made, and only on success |
| InstallProperties.ProvisionSkipsCheckOnWindows | npm/install.js:110-119 | on Windows after a 200 reply, an archive without `sl` still succeeds with no file at the binary path |
| InstallProperties.InstalledRunProvisions | npm/install.js:89-110 | a successful run had a supported platform and no binary, and is the bin directory's creation (if needed) followed by the download and the rest |
| InstallProperties.InstalledRunOrder | npm/install.js:80-136 | a successful run requests the release URL, then runs tar, then the chmod step (off Windows), then the npm query, in that order |
| InstallProperties.InstalledRunCleansUp | npm/install.js:135-136 | a successful run's last effect is the archive's removal |
| InstallProperties.InstalledRunLeavesNoArchive | npm/install.js:135-136 | a successful run leaves no archive behind |
| InstallProperties.ChmodOnlyOffWindows | npm/install.js:116-119 | a run's chmod effects are exactly one chmod of the binary to 0o755 when it succeeds off Windows, and none otherwise |
| InstallProperties.SymlinkOnlyWhenAllowed | npm/install.js:121-133 | a run makes at most one link, `<npm bin -g>/sl` to the binary, and only when it succeeds and npm printed a non-empty directory that accepts it |
| InstallProperties.InstalledBinaryExecutable | npm/install.js:116-119 | after a successful run off Windows the binary exists with mode 0o755 |
| InstallProperties.ArchiveKeptOnFailure | npm/install.js:105-136 | a failed run removes the archive only after a transport error; after a bad status, a failed extraction or a failed chmod it stays on disk |
| InstallProperties.SecondRunIsNoOp | npm/install.js:99-103 | after a successful run off Windows, a second run on the same package with a supported platform finds the binary and does nothing |
| InstallProperties.WindowsSkipsBinaryCheck | npm/install.js:114-119 | on Windows a run succeeds after a 200 reply and an archive without `sl`, with no file at the binary path |

## Left out

- Reading `package.json`: the version is an input of the model. A missing or
  malformed manifest is not modelled.
- Console output (the progress lines and the diagnostic on stderr) is not
  modelled. Only the error's message text is.
- HTTPS streaming is not modelled. Neither are the `User-Agent` header, stream
  events or a connection that stalls. A reply is atomic: a status, a `Location`
  and a full body, or a transport error.
- Errors on the write stream itself (opening or writing `sl.tar.gz`) are not
  modelled. The stream is assumed to open and to accept the body.
- The file descriptor that stays open on each redirect hop is not modelled.
- The asynchronous `fs.unlink` after a transport error races with
  `process.exit(1)`. It is modelled as having completed.
- Fetcher.Download: a redirect chain that never ends cannot be expressed. The
  replies must contain a non-redirect (`Settles`), because the source recurses
  without a limit and such a run never finishes.
- Fetcher.Download: which URLs `https.get` rejects synchronously (a relative or
  non-`https:` `Location`) is given by a `Rejected` reply. It is not derived by
  parsing the URL.
- ExecTar (`HostFs.Host.ExecTar`): the permission bits each entry gets on disk
  are part of the `tar` outcome given as input. They are not derived from a tar
  header and the process umask.
- Partial extraction by a failing `tar` is not modelled. A failed `tar` leaves
  the disk unchanged.
- Path normalisation by `path.join` is not modelled. A path is the directory,
  "/" and the name.
- SymlinkSync (`HostFs.Host.SymlinkSync`): directory symlinks are not resolved.
  A global directory that is itself a symlink to a directory gets no link in the
  model, where `symlinkSync` would resolve it and make one (`npm/install.js:127`).
- LinkGlobalCreatesLinkExactlyWhen (`Provisioner.LinkGlobalCreatesLinkExactlyWhen`,
  and `Provisioner.LinkGlobal` with it): the link is made only when the printed
  directory is a directory entry. A symlink to a directory counts as "no link",
  for the same reason.
- `existsSync` following symlinks to their targets is not modelled. The model
  tests whether an entry is present.
- Creating missing parent directories in `mkdirSync({ recursive: true })` is not
  modelled. Only the `bin` directory is created.
- Permission errors are modelled for the global directory only, as an input
  flag. Other permission failures and disk-full errors are not modelled.
- Keys inherited from `Object.prototype` in the `PLATFORM_MAP`/`ARCH_MAP` lookup
  (such as `constructor`) are not modelled. The tables are closed maps.
