/** The machine the installer runs on, reduced to what it touches: the
    filesystem entries at each path, their permission bits, and a trace of the
    effects performed on disk, on the network and through subprocesses. */
module HostFs {
  import opened Results
  import ArtifactLocator

  newtype byte = x: int | 0 <= x < 256

  type Path = string

  datatype Node = Dir | File(content: seq<byte>) | Symlink(target: Path)

  /** One archive member as `tar` writes it: its bytes, and the permission bits
      it gets on disk (the archive's, after the process umask). */
  datatype Entry = Entry(content: seq<byte>, mode: int)

  /** What `tar -xzf` did: the entries it wrote into the target directory, or its failure. */
  datatype TarOutcome = Extracted(entries: map<string, Entry>) | TarFailed(message: string)

  /** One observable step of a run, in the order performed. */
  datatype Effect =
    | MakeDir(path: Path)                      // mkdirSync
    | OpenForWrite(path: Path)                 // createWriteStream: creates or truncates
    | Get(url: string)                         // one HTTPS request
    | WriteBody(path: Path, body: seq<byte>)   // response piped into the file
    | RunTar(archive: Path, dir: Path)         // the tar subprocess
    | SetMode(path: Path, mode: int)           // chmodSync
    | QueryGlobalBin                           // the `npm bin -g` subprocess
    | CreateSymlink(target: Path, link: Path)  // symlinkSync
    | Remove(path: Path)                       // unlink / unlinkSync

  /** The filesystem as a value. */
  datatype Disk = Disk(nodes: map<Path, Node>, modes: map<Path, int>)
  {
    function MakeDir(p: Path): Disk {
      this.(nodes := nodes[p := Dir])
    }

    /** A write stream opened on `p`: an empty file whatever stood there. */
    function Truncate(p: Path): Disk {
      this.(nodes := nodes[p := File([])])
    }

    function Write(p: Path, body: seq<byte>): Disk {
      this.(nodes := nodes[p := File(body)])
    }

    /** unlink succeeds on an existing entry that is not a directory. */
    predicate Unlinkable(p: Path) {
      p in nodes && !nodes[p].Dir?
    }

    function Remove(p: Path): Disk {
      Disk(nodes - {p}, modes - {p})
    }

    function Chmod(p: Path, mode: int): Disk {
      this.(modes := modes[p := mode])
    }

    function Link(target: Path, link: Path): Disk {
      this.(nodes := nodes[link := Symlink(target)])
    }

    /** The entries a successful extraction wrote, each a file under `dir` with
        the entry's permission bits; everything else is left as it was. */
    function Unpack(dir: Path, entries: map<string, Entry>): Disk {
      var placed := Placed(dir, entries);
      Disk(nodes + map p | p in placed :: File(placed[p].content),
           modes + map p | p in placed :: placed[p].mode)
    }
  }

  /** Each entry keyed by the path it is extracted to. */
  function Placed(dir: Path, entries: map<string, Entry>): map<Path, Entry> {
    ArtifactLocator.JoinInjective(dir);
    map name | name in entries :: ArtifactLocator.Join(dir, name) := entries[name]
  }

  /** The paths an extraction of `entries` into `dir` writes. */
  function Written(dir: Path, entries: map<string, Entry>): set<Path> {
    set name | name in entries :: ArtifactLocator.Join(dir, name)
  }

  /** Extraction writes each entry as a file at its path under `dir`, with the
      entry's bytes and permission bits, and only those paths are added. */
  lemma UnpackWrites(d: Disk, dir: Path, entries: map<string, Entry>)
    ensures d.Unpack(dir, entries).nodes.Keys == d.nodes.Keys + Written(dir, entries)
    ensures forall name :: name in entries ==>
              && d.Unpack(dir, entries).nodes[ArtifactLocator.Join(dir, name)] == File(entries[name].content)
              && ArtifactLocator.Join(dir, name) in d.Unpack(dir, entries).modes
              && d.Unpack(dir, entries).modes[ArtifactLocator.Join(dir, name)] == entries[name].mode
  {
    PlacedEntries(dir, entries);
  }

  /** Each entry sits at its own path in `Placed`, and `Placed` holds exactly the written paths. */
  lemma PlacedEntries(dir: Path, entries: map<string, Entry>)
    ensures Placed(dir, entries).Keys == Written(dir, entries)
    ensures forall name :: name in entries ==>
              && ArtifactLocator.Join(dir, name) in Placed(dir, entries)
              && Placed(dir, entries)[ArtifactLocator.Join(dir, name)] == entries[name]
  {
    ArtifactLocator.JoinInjective(dir);
  }

  /** Extraction keeps the entry and the mode of every path it does not write. */
  lemma UnpackKeeps(d: Disk, dir: Path, entries: map<string, Entry>)
    ensures d.Unpack(dir, entries).modes.Keys == d.modes.Keys + Written(dir, entries)
    ensures forall p :: p in d.modes && p !in Written(dir, entries) ==> d.Unpack(dir, entries).modes[p] == d.modes[p]
    ensures forall p :: p in d.nodes && p !in Written(dir, entries) ==> d.Unpack(dir, entries).nodes[p] == d.nodes[p]
  {
    PlacedEntries(dir, entries);
  }

  /** Concatenating effect logs is associative; named so that methods can hand
      the step to the solver explicitly. */
  lemma AppendAssociates(a: seq<Effect>, b: seq<Effect>, c: seq<Effect>)
    ensures (a + b) + c == a + (b + c)
  {
  }

  /** A run of a part of the installer: what it returned, the disk afterwards, the effects in order. */
  datatype Run<+T> = Run(result: T, disk: Disk, effects: seq<Effect>)

  /** The host, updated in place by the filesystem calls and subprocesses the installer makes. */
  class Host {
    var nodes: map<Path, Node>
    var modes: map<Path, int>
    var trace: seq<Effect>

    function State(): Disk
      reads this
    {
      Disk(nodes, modes)
    }

    constructor (initial: Disk)
      ensures State() == initial && trace == []
    {
      nodes := initial.nodes;
      modes := initial.modes;
      trace := [];
    }

    /** `fs.existsSync`. */
    function ExistsSync(p: Path): (b: bool)
      reads this
      ensures b <==> p in State().nodes
    {
      p in nodes
    }

    /** `fs.mkdirSync(p, { recursive: true })`. */
    method MkdirSync(p: Path)
      modifies this
      ensures State() == old(State()).MakeDir(p)
      ensures trace == old(trace) + [MakeDir(p)]
    {
      nodes := nodes[p := Dir];
      trace := trace + [MakeDir(p)];
    }

    /** `fs.createWriteStream(p)`. */
    method CreateWriteStream(p: Path)
      modifies this
      ensures State() == old(State()).Truncate(p)
      ensures trace == old(trace) + [OpenForWrite(p)]
    {
      nodes := nodes[p := File([])];
      trace := trace + [OpenForWrite(p)];
    }

    /** `https.get(url, ...)` on a URL it accepts: the request is sent; its answer is supplied by the caller. */
    method HttpsGet(url: string)
      modifies this
      ensures State() == old(State())
      ensures trace == old(trace) + [Get(url)]
    {
      trace := trace + [Get(url)];
    }

    /** `response.pipe(file)` up to the stream's `finish` event. */
    method PipeBody(p: Path, body: seq<byte>)
      modifies this
      ensures State() == old(State()).Write(p, body)
      ensures trace == old(trace) + [WriteBody(p, body)]
    {
      nodes := nodes[p := File(body)];
      trace := trace + [WriteBody(p, body)];
    }

    /** `fs.unlink(p, () => {})`: removes the entry if it can, and ignores a failure. */
    method UnlinkQuietly(p: Path)
      modifies this
      ensures State() == if old(State()).Unlinkable(p) then old(State()).Remove(p) else old(State())
      ensures trace == old(trace) + if old(State()).Unlinkable(p) then [Remove(p)] else []
    {
      if p in nodes && !nodes[p].Dir? {
        nodes, modes := nodes - {p}, modes - {p};
        trace := trace + [Remove(p)];
      }
    }

    /** `fs.unlinkSync(p)`: `ok` is false where Node would throw. */
    method UnlinkSync(p: Path) returns (ok: bool)
      modifies this
      ensures ok == old(State()).Unlinkable(p)
      ensures State() == if ok then old(State()).Remove(p) else old(State())
      ensures trace == old(trace) + if ok then [Remove(p)] else []
    {
      ok := p in nodes && !nodes[p].Dir?;
      if ok {
        nodes, modes := nodes - {p}, modes - {p};
        trace := trace + [Remove(p)];
      }
    }

    /** `fs.chmodSync(p, mode)`: `ok` is false (ENOENT) when nothing is at `p`. */
    method ChmodSync(p: Path, mode: int) returns (ok: bool)
      modifies this
      ensures ok == (p in old(State()).nodes)
      ensures State() == if ok then old(State()).Chmod(p, mode) else old(State())
      ensures trace == old(trace) + if ok then [SetMode(p, mode)] else []
    {
      ok := p in nodes;
      if ok {
        modes := modes[p := mode];
        trace := trace + [SetMode(p, mode)];
      }
    }

    /** `tar -xzf archive -C dir`, whose outcome is supplied by the caller. */
    method ExecTar(archive: Path, dir: Path, outcome: TarOutcome) returns (ok: bool)
      modifies this
      ensures ok == outcome.Extracted?
      ensures State() == if ok then old(State()).Unpack(dir, outcome.entries) else old(State())
      ensures trace == old(trace) + [RunTar(archive, dir)]
    {
      ok := outcome.Extracted?;
      if ok {
        var unpacked := State().Unpack(dir, outcome.entries);
        nodes, modes := unpacked.nodes, unpacked.modes;
      }
      trace := trace + [RunTar(archive, dir)];
    }

    /** `execSync('npm bin -g')`, whose standard output (None when it throws) is supplied by the caller. */
    method ExecNpmBinGlobal(output: Option<string>) returns (stdout: Option<string>)
      modifies this
      ensures stdout == output
      ensures State() == old(State())
      ensures trace == old(trace) + [QueryGlobalBin]
    {
      stdout := output;
      trace := trace + [QueryGlobalBin];
    }

    /** `fs.symlinkSync(target, join(dir, name))`: fails when `dir` is not a directory,
        when something is already at the link's path, or when `dir` is not writable. */
    method SymlinkSync(target: Path, dir: Path, name: string, writable: bool) returns (ok: bool)
      modifies this
      ensures ok == (dir in old(State()).nodes && old(State()).nodes[dir].Dir?
                     && ArtifactLocator.Join(dir, name) !in old(State()).nodes && writable)
      ensures State() == if ok then old(State()).Link(target, ArtifactLocator.Join(dir, name)) else old(State())
      ensures trace == old(trace) + if ok then [CreateSymlink(target, ArtifactLocator.Join(dir, name))] else []
    {
      var link := ArtifactLocator.Join(dir, name);
      ok := dir in nodes && nodes[dir].Dir? && link !in nodes && writable;
      if ok {
        nodes := nodes[link := Symlink(target)];
        trace := trace + [CreateSymlink(target, link)];
      }
    }
  }
}
