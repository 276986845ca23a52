/**
 * The installer's steps as functions on an abstract state. Each function is
 * the specification of one method of the installer class: what it logs, what
 * progress it reports, which external operations it starts, how it changes
 * the filesystem, and whether it raises.
 *
 * Every outside effect is an input: exit codes of subprocesses, the probe of
 * free disk space, the reports and success of a download, the entries an
 * archive unpacks to, the working copy git leaves behind, the OS family.
 */
module Steps {
  import opened Paths
  import opened Events
  import opened Files
  import opened Probing
  import opened DownloadProgress

  const DemoRepo: string := "https://github.com/AnarQorp/anarqq-ecosystem-demo.git"
  const CoreRepo: string := "https://github.com/AnarQorp/anarqq-ecosystem-core.git"
  const DemoZip: string := "https://github.com/AnarQorp/anarqq-ecosystem-demo/archive/refs/heads/main.zip"
  const CoreZip: string := "https://github.com/AnarQorp/anarqq-ecosystem-core/archive/refs/heads/main.zip"

  /** What `subprocess.run(..., check=True)` did: ran to an exit code, or could not start the program. */
  datatype RunOutcome = Finished(code: int) | LaunchFailed

  /** The hook reports a download made, and whether it then completed or raised. */
  datatype Download = Download(reports: seq<HookCall>, completed: bool)

  /**
   * What unpacking an archive did. `Extracted` lists the top-level entries of
   * the extraction directory in directory-listing order, possibly none.
   * `ExtractedNothing` is an archive without members: unpacking succeeds but
   * never creates the extraction directory. `ExtractFailed` is a file that is
   * not a readable archive.
   */
  datatype Extraction = Extracted(entries: seq<Tree>) | ExtractedNothing | ExtractFailed

  /** Everything the outside world decides during one acquisition. */
  datatype AcquireWorld = AcquireWorld(
    gitProbe: ProbeOutcome,
    gitRun: RunOutcome,
    workingCopy: Tree,
    download: Download,
    extraction: Extraction)

  /** Everything the outside world decides during one installation run. */
  datatype World = World(
    pythonVersion: string,
    node: ProbeOutcome,
    npm: ProbeOutcome,
    git: ProbeOutcome,
    docker: ProbeOutcome,
    disk: DiskProbe,
    demo: AcquireWorld,
    core: AcquireWorld,
    npmInstall: RunOutcome,
    npmBuild: RunOutcome,
    os: OsFamily,
    emojiEncodable: bool)  // whether the default encoding of `open(path, 'w')` can encode the scripts' emoji

  /**
   * The observable state: the host filesystem, every log line printed and sent
   * to the log callback, the lines that reached `install.log`, every progress
   * report, and every external operation started.
   */
  datatype State = State(
    fs: Fs,
    stream: seq<LogRecord>,
    logFile: seq<LogRecord>,
    progress: seq<ProgressEvent>,
    calls: seq<External>)

  /** A step returns normally or raises; either way with the state it reached. */
  datatype Outcome = Normal(state: State) | Raised(state: State, fault: Fault)

  function FaultOf(o: Outcome): Option<Fault>
  {
    if o.Raised? then Some(o.fault) else None
  }

  /** Logs, progress and calls only grow: nothing recorded earlier is rewritten. */
  ghost predicate Extends(s: State, t: State)
  {
    s.stream <= t.stream && s.logFile <= t.logFile && s.progress <= t.progress && s.calls <= t.calls
  }

  /** `t` extends `s` and reports no checkpoint of its own. */
  ghost predicate Quiet(s: State, t: State)
  {
    Extends(s, t) && Checkpoints(t.progress) == Checkpoints(s.progress)
  }

  /** Every external operation started between `s` and `t` is one of `allowed`. */
  ghost predicate CallsWithin(s: State, t: State, allowed: set<External>)
  {
    |s.calls| <= |t.calls| && forall i | |s.calls| <= i < |t.calls| :: t.calls[i] in allowed
  }

  // ---------------------------------------------------------------- log, progress

  /** `log`: the record always reaches the stream, and reaches the log file once the install directory exists. */
  function LogStep(s: State, l: Layout, level: Level, message: string): (t: State)
    ensures Quiet(s, t) && t.fs == s.fs && t.calls == s.calls && t.progress == s.progress
    ensures t.stream == s.stream + [LogRecord(level, message)]
    ensures t.logFile == if IsDir(s.fs, l.installDir) then s.logFile + [LogRecord(level, message)] else s.logFile
  {
    var rec := LogRecord(level, message);
    s.(stream := s.stream + [rec],
       logFile := if IsDir(s.fs, l.installDir) then s.logFile + [rec] else s.logFile)
  }

  /** Several records logged in a row while the filesystem stays put. */
  function EmitStep(s: State, l: Layout, records: seq<LogRecord>): (t: State)
    ensures Quiet(s, t) && t.fs == s.fs && t.calls == s.calls && t.progress == s.progress
    ensures t.stream == s.stream + records
  {
    s.(stream := s.stream + records,
       logFile := if IsDir(s.fs, l.installDir) then s.logFile + records else s.logFile)
  }

  /** `update_progress`. */
  function ProgressStep(s: State, e: ProgressEvent): (t: State)
    ensures Extends(s, t) && t.fs == s.fs && t.calls == s.calls && t.stream == s.stream
    ensures t.progress == s.progress + [e]
  {
    s.(progress := s.progress + [e])
  }

  // ---------------------------------------------------------------- requirements

  /** The record logged after probing one tool. */
  function ProbeRecord(o: ProbeOutcome, found: string, missing: LogRecord): LogRecord
  {
    if Answers(o) then LogRecord(Info, found + VersionProbe(o).1) else missing
  }

  /** The free-space record: an ERROR exactly when too little space was read, a WARNING when none could be. */
  function DiskRecord(d: DiskProbe): (r: LogRecord)
    ensures r.level == Error <==> DiskShort(d)
    ensures d.DiskUnreadable? ==> r.level == Warning
  {
    match d
    case FreeBytes(b) =>
      if b >= RequiredDiskBytes then LogRecord(Info, "Disk space available")
      else LogRecord(Error, "Insufficient disk space")
    case DiskUnreadable => LogRecord(Warning, "Could not check disk space")
  }

  /**
   * The records `check_system_requirements` logs, in order. Only a missing
   * node, a missing npm and a short disk are errors; git and docker only
   * ever produce INFO or WARNING lines.
   */
  function RequirementsLog(w: World): (log: seq<LogRecord>)
    ensures |log| == 7
    ensures log[0].level == Info && log[1].level == Info
    ensures log[2].level == Error <==> !Answers(w.node)
    ensures log[3].level == Error <==> !Answers(w.npm)
    ensures log[4].level != Error && log[5].level != Error
    ensures log[6].level == Error <==> DiskShort(w.disk)
  {
    [ LogRecord(Info, "Checking system requirements..."),
      LogRecord(Info, "Python version: " + w.pythonVersion),
      ProbeRecord(w.node, "Node.js found: ", LogRecord(Error, "Node.js not found")),
      ProbeRecord(w.npm, "npm found: ", LogRecord(Error, "npm not found")),
      ProbeRecord(w.git, "Git found: ", LogRecord(Warning, "Git not found (will use ZIP download)")),
      ProbeRecord(w.docker, "Docker found: ", LogRecord(Info, "Docker not found (optional)")),
      DiskRecord(w.disk) ]
  }

  /** The tools probed, in order. */
  const ProbedTools: seq<External> :=
    [VersionQuery("node"), VersionQuery("npm"), VersionQuery("git"), VersionQuery("docker")]

  /**
   * The requirements hold: node and npm answer, and free space was not found
   * short. That is exactly when the check logs no ERROR record, so when the
   * `errors` counter stays at zero.
   */
  predicate RequirementsMet(w: World)
    ensures RequirementsMet(w) <==> ErrorFree(RequirementsLog(w))
  {
    SevenLevels(RequirementsLog(w));
    Answers(w.node) && Answers(w.npm) && !DiskShort(w.disk)
  }

  /** `check_system_requirements`. */
  function RequirementsStep(s: State, l: Layout, w: World): (r: (State, bool))
    ensures Quiet(s, r.0) && r.0.fs == s.fs && r.0.progress == s.progress
    ensures r.0.stream == s.stream + RequirementsLog(w) && r.0.calls == s.calls + ProbedTools
    ensures r.1 == RequirementsMet(w)
  {
    (EmitStep(s, l, RequirementsLog(w)).(calls := s.calls + ProbedTools), RequirementsMet(w))
  }

  // ---------------------------------------------------------------- directories

  /** One `mkdir(exist_ok=True)` of `setup_directories`. */
  function MkdirStep(s: State, p: Path): (r: Outcome)
    ensures r.state.stream == s.stream && r.state.logFile == s.logFile
    ensures r.state.calls == s.calls && r.state.progress == s.progress
    ensures forall q | q != p :: Unchanged(s.fs, r.state.fs, q)
    ensures r.Normal? <==> IsDir(s.fs, p) || (!Exists(s.fs, p) && IsDir(s.fs, Parent(p)))
    ensures r.Normal? ==> IsDir(r.state.fs, p)
    ensures r.Raised? ==> r.state == s
  {
    match Mkdir(s.fs, p)
    case Refused(f) => Raised(s, f)
    case Changed(fs') => Normal(s.(fs := fs'))
  }

  /** Three changes, each confined to one path, change nothing else. */
  lemma FrameOfThree(a: Fs, b: Fs, c: Fs, d: Fs, p1: Path, p2: Path, p3: Path)
    requires forall q | q != p1 :: Unchanged(a, b, q)
    requires forall q | q != p2 :: Unchanged(b, c, q)
    requires forall q | q != p3 :: Unchanged(c, d, q)
    ensures forall q | q != p1 && q != p2 && q != p3 :: Unchanged(a, d, q)
  {
    forall q | q != p1 && q != p2 && q != p3 ensures Unchanged(a, d, q) {
      assert Unchanged(a, b, q) && Unchanged(b, c, q) && Unchanged(c, d, q);
    }
  }

  /** Each of the three `mkdir`s, once the ones before it returned, returns exactly under its own condition. */
  lemma MkdirsConditions(s: State, l: Layout)
    ensures var r2 := MkdirStep(s, l.installDir);
      var r3 := MkdirStep(r2.state, l.DemoDir());
      var r4 := MkdirStep(r3.state, l.CoreDir());
      && (r2.Normal? <==> IsDir(s.fs, l.installDir) || (!Exists(s.fs, l.installDir) && IsDir(s.fs, Parent(l.installDir))))
      && (r2.Normal? ==> (r3.Normal? <==> IsDir(s.fs, l.DemoDir()) || !Exists(s.fs, l.DemoDir())))
      && (r2.Normal? && r3.Normal? ==> (r4.Normal? <==> IsDir(s.fs, l.CoreDir()) || !Exists(s.fs, l.CoreDir())))
  {
    var demo, core := l.DemoDir(), l.CoreDir();
    var r2 := MkdirStep(s, l.installDir);
    var r3 := MkdirStep(r2.state, demo);
    var n := |l.installDir|;
    assert demo[n] != core[n] && demo != l.installDir && core != l.installDir;
    assert Parent(demo) == l.installDir && Parent(core) == l.installDir && demo != [] && core != [];
    assert Unchanged(s.fs, r2.state.fs, demo) && Unchanged(s.fs, r2.state.fs, core);
    assert Unchanged(r2.state.fs, r3.state.fs, core) && Unchanged(r2.state.fs, r3.state.fs, l.installDir);
  }

  /** When all three `mkdir`s return, all three paths are directories. */
  lemma MkdirsLeaveDirectories(s: State, l: Layout)
    ensures var r2 := MkdirStep(s, l.installDir);
      var r3 := MkdirStep(r2.state, l.DemoDir());
      var r4 := MkdirStep(r3.state, l.CoreDir());
      r2.Normal? && r3.Normal? && r4.Normal? ==>
        IsDir(r4.state.fs, l.installDir) && IsDir(r4.state.fs, l.DemoDir()) && IsDir(r4.state.fs, l.CoreDir())
  {
    var demo, core := l.DemoDir(), l.CoreDir();
    var r2 := MkdirStep(s, l.installDir);
    var r3 := MkdirStep(r2.state, demo);
    var r4 := MkdirStep(r3.state, core);
    var n := |l.installDir|;
    assert demo[n] != core[n] && demo != l.installDir && core != l.installDir;
    assert Unchanged(r2.state.fs, r3.state.fs, l.installDir);
    assert Unchanged(r3.state.fs, r4.state.fs, demo) && Unchanged(r3.state.fs, r4.state.fs, l.installDir);
  }

  /**
   * The three `mkdir`s of `setup_directories`, stopping at the first that
   * raises. They succeed exactly when the install root is a directory, or is
   * absent under a directory, and `demo/` and `core/` are each a directory or
   * absent.
   */
  function Mkdirs(s: State, l: Layout): (r: Outcome)
    ensures r.state.stream == s.stream && r.state.logFile == s.logFile
    ensures r.state.calls == s.calls && r.state.progress == s.progress
    ensures forall q | q != l.installDir && q != l.DemoDir() && q != l.CoreDir() :: Unchanged(s.fs, r.state.fs, q)
    ensures r.Normal? <==>
      && (IsDir(s.fs, l.installDir) || (!Exists(s.fs, l.installDir) && IsDir(s.fs, Parent(l.installDir))))
      && (IsDir(s.fs, l.DemoDir()) || !Exists(s.fs, l.DemoDir()))
      && (IsDir(s.fs, l.CoreDir()) || !Exists(s.fs, l.CoreDir()))
    ensures r.Normal? ==> IsDir(r.state.fs, l.installDir) && IsDir(r.state.fs, l.DemoDir()) && IsDir(r.state.fs, l.CoreDir())
  {
    var r2 := MkdirStep(s, l.installDir);
    var r3 := MkdirStep(r2.state, l.DemoDir());
    var r4 := MkdirStep(r3.state, l.CoreDir());
    FrameOfThree(s.fs, r2.state.fs, r3.state.fs, r4.state.fs, l.installDir, l.DemoDir(), l.CoreDir());
    MkdirsConditions(s, l);
    MkdirsLeaveDirectories(s, l);
    if r2.Raised? then r2
    else if r3.Raised? then r3
    else r4
  }

  /** `setup_directories`: the install root, then `demo/`, then `core/`; `touch` leaves no mark here. */
  function DirectoriesStep(s: State, l: Layout): (r: Outcome)
    ensures Quiet(s, r.state) && r.state.calls == s.calls && r.state.progress == s.progress
    ensures forall q | q != l.installDir && q != l.DemoDir() && q != l.CoreDir() :: Unchanged(s.fs, r.state.fs, q)
    ensures r.Normal? ==> IsDir(r.state.fs, l.installDir) && IsDir(r.state.fs, l.DemoDir()) && IsDir(r.state.fs, l.CoreDir())
    ensures r.Normal? <==>
      && (IsDir(s.fs, l.installDir) || (!Exists(s.fs, l.installDir) && IsDir(s.fs, Parent(l.installDir))))
      && (IsDir(s.fs, l.DemoDir()) || !Exists(s.fs, l.DemoDir()))
      && (IsDir(s.fs, l.CoreDir()) || !Exists(s.fs, l.CoreDir()))
  {
    var s1 := LogStep(s, l, Info, "Setting up directories...");
    var m := Mkdirs(s1, l);
    if m.Raised? then m
    else Normal(LogStep(m.state, l, Info, "Directories created"))
  }

  // ---------------------------------------------------------------- acquisition

  /** `download_file`: the hook forwards percentages while the download runs. */
  function DownloadStep(s: State, l: Layout, url: string, description: string, d: Download): (r: Outcome)
    ensures Quiet(s, r.state) && r.state.fs == s.fs
    ensures r.state.calls == s.calls + [Fetch(url)]
    ensures r.state.progress == s.progress + HookEvents(d.reports, description)
    ensures r.Normal? <==> d.completed
  {
    var s1 := LogStep(s, l, Info, "Downloading " + description + "...");
    var ticks := HookEvents(d.reports, description);
    var s2 := s1.(calls := s1.calls + [Fetch(url)], progress := s1.progress + ticks);
    CheckpointsOfTicks(ticks);
    CheckpointsAppend(s1.progress, ticks);
    if d.completed then Normal(LogStep(s2, l, Info, "Downloaded " + description)) else Raised(s2, DownloadFailed(url))
  }

  /** `extract_zip`. */
  function ExtractStep(s: State, l: Layout, url: string, description: string, e: Extraction): (r: Outcome)
    ensures Quiet(s, r.state) && r.state.fs == s.fs && r.state.progress == s.progress
    ensures r.state.calls == s.calls + [Unpack(url)]
    ensures r.Normal? <==> !e.ExtractFailed?
  {
    var s1 := LogStep(s, l, Info, "Extracting " + description + "...");
    var s2 := s1.(calls := s1.calls + [Unpack(url)]);
    if e.ExtractFailed? then Raised(s2, BadArchive(url))
    else Normal(LogStep(s2, l, Info, "Extracted " + description))
  }

  /**
   * The archive fallback of `clone_or_download_repo`: download, unpack, and
   * put the first unpacked entry in place of the destination. An empty
   * extraction directory leaves the destination as it was, without an error;
   * a missing one makes listing it raise.
   */
  function ZipFallbackStep(s: State, l: Layout, zipUrl: string, dest: Path, name: string, aw: AcquireWorld): (r: Outcome)
    ensures Quiet(s, r.state) && SameOutside(s.fs, r.state.fs, dest)
    ensures CallsWithin(s, r.state, {Fetch(zipUrl), Unpack(zipUrl)})
    ensures s.calls + [Fetch(zipUrl)] <= r.state.calls
    ensures r.state.progress == s.progress + HookEvents(aw.download.reports, name + " repository")
  {
    var s1 := LogStep(s, l, Info, "Downloading " + name + " as ZIP...");
    var description := name + " repository";
    match DownloadStep(s1, l, zipUrl, description, aw.download)
    case Raised(t, f) => Raised(t, f)
    case Normal(s2) =>
      match ExtractStep(s2, l, zipUrl, description, aw.extraction)
      case Raised(t, f) => Raised(t, f)
      case Normal(s3) =>
        if aw.extraction.ExtractedNothing? then Raised(s3, ExtractionMissing(zipUrl))
        else MoveStep(s3, l, dest, name, aw.extraction.entries)
  }

  /**
   * The end of the archive fallback: the first unpacked entry replaces the
   * destination; no entry at all leaves it as it was.
   */
  function MoveStep(s: State, l: Layout, dest: Path, name: string, entries: seq<Tree>): (r: Outcome)
    ensures Quiet(s, r.state) && r.state.calls == s.calls && r.state.progress == s.progress
    ensures SameOutside(s.fs, r.state.fs, dest)
    ensures r.Normal? && entries != [] ==> r.state.fs == Replace(s.fs, dest, entries[0])
    ensures r.Raised? || entries == [] ==> r.state.fs == s.fs
  {
    if entries == [] then Normal(s)
    else if Exists(s.fs, dest) && !IsDir(s.fs, dest) then Raised(s, NotADirectory(dest))
    else Normal(LogStep(s.(fs := Replace(s.fs, dest, entries[0])), l, Info, "Downloaded and extracted " + name))
  }

  /** What a successful clone or pull leaves at the destination: a directory holding `.git`. */
  function WorkingCopy(t: Tree): (w: Tree)
    ensures [] in w && w[[]] == Dir && [".git"] in w && w[[".git"]] == Dir
  {
    t[[] := Dir][[".git"] := Dir]
  }

  /** The operations an acquisition into `dest` may start. */
  function AcquireCalls(repoUrl: string, zipUrl: string, dest: Path): set<External>
  {
    {VersionQuery("git"), GitPull(dest), GitClone(repoUrl, dest), Fetch(zipUrl), Unpack(zipUrl)}
  }

  /** Two stretches of calls, each within its own set, make one stretch within a set holding both. */
  lemma CallsWithinChain(s: State, t: State, u: State, a: set<External>, b: set<External>, c: set<External>)
    requires CallsWithin(s, t, a) && CallsWithin(t, u, b) && a <= c && b <= c
    requires s.calls <= t.calls && t.calls <= u.calls
    ensures CallsWithin(s, u, c)
  {
  }

  lemma PrefixTrans<T>(a: seq<T>, b: seq<T>, c: seq<T>)
    requires a <= b && b <= c
    ensures a <= c
  {
  }

  /** The git branch of `clone_or_download_repo`, entered once git has answered its probe. */
  function GitStep(s: State, l: Layout, repoUrl: string, zipUrl: string, dest: Path, name: string, aw: AcquireWorld): (r: Outcome)
    ensures Quiet(s, r.state) && SameOutside(s.fs, r.state.fs, dest)
    ensures CallsWithin(s, r.state, AcquireCalls(repoUrl, zipUrl, dest))
    ensures s.calls + [if Exists(s.fs, dest) && Exists(s.fs, dest + [".git"]) then GitPull(dest) else GitClone(repoUrl, dest)]
      <= r.state.calls
  {
    var s1 := LogStep(s, l, Info, "Cloning " + name + " repository...");
    var pull := Exists(s.fs, dest) && Exists(s.fs, dest + [".git"]);
    var s2 := s1.(calls := s.calls + [if pull then GitPull(dest) else GitClone(repoUrl, dest)]);
    match aw.gitRun
    case LaunchFailed => Raised(s2, ToolLaunchFailed("git"))
    case Finished(code) =>
      if code == 0 then GitDoneStep(s2, l, dest, name, pull, aw.workingCopy)
      else
        var r := GitFallbackStep(s2, l, zipUrl, dest, name, aw);
        CallsWithinChain(s, s2, r.state, AcquireCalls(repoUrl, zipUrl, dest), {Fetch(zipUrl), Unpack(zipUrl)}, AcquireCalls(repoUrl, zipUrl, dest));
        r
  }

  /** A git command that succeeded: a working copy now stands at the destination. */
  function GitDoneStep(s: State, l: Layout, dest: Path, name: string, pull: bool, checkout: Tree): (r: Outcome)
    ensures r.Normal? && Quiet(s, r.state) && r.state.calls == s.calls && r.state.progress == s.progress
    ensures r.state.fs == Replace(s.fs, dest, WorkingCopy(checkout))
  {
    Normal(LogStep(s.(fs := Replace(s.fs, dest, WorkingCopy(checkout))), l, Info,
                   (if pull then "Updated " else "Cloned ") + name + " repository"))
  }

  /** A git command that exited non-zero: warn, then fetch the archive instead. */
  function GitFallbackStep(s: State, l: Layout, zipUrl: string, dest: Path, name: string, aw: AcquireWorld): (r: Outcome)
    ensures Quiet(s, r.state) && SameOutside(s.fs, r.state.fs, dest)
    ensures CallsWithin(s, r.state, {Fetch(zipUrl), Unpack(zipUrl)})
    ensures s.stream + [LogRecord(Warning, "Git clone failed")] <= r.state.stream
    ensures s.calls + [Fetch(zipUrl)] <= r.state.calls
  {
    var s1 := LogStep(s, l, Warning, "Git clone failed");
    var r := ZipFallbackStep(s1, l, zipUrl, dest, name, aw);
    PrefixTrans(s.stream + [LogRecord(Warning, "Git clone failed")], s1.stream, r.state.stream);
    r
  }

  /**
   * `clone_or_download_repo`: with git available, pull into an existing working
   * copy or clone a new one; a failing git command falls back to the archive,
   * and so does git being unavailable.
   */
  function AcquireStep(s: State, l: Layout, repoUrl: string, zipUrl: string, dest: Path, name: string, aw: AcquireWorld): (r: Outcome)
    ensures Quiet(s, r.state) && SameOutside(s.fs, r.state.fs, dest)
    ensures CallsWithin(s, r.state, AcquireCalls(repoUrl, zipUrl, dest))
  {
    var s1 := s.(calls := s.calls + [VersionQuery("git")]);
    var r := if Answers(aw.gitProbe) then GitStep(s1, l, repoUrl, zipUrl, dest, name, aw)
             else ZipFallbackStep(s1, l, zipUrl, dest, name, aw);
    CallsWithinChain(s, s1, r.state, AcquireCalls(repoUrl, zipUrl, dest), AcquireCalls(repoUrl, zipUrl, dest), AcquireCalls(repoUrl, zipUrl, dest));
    r
  }

  // ---------------------------------------------------------------- dependencies, environment, launchers

  /**
   * `install_dependencies`: `npm install` must succeed; `npm run build` may
   * fail with only a warning. Only a non-zero exit of `npm install` is logged
   * here; a program that cannot start raises straight through.
   */
  function DependenciesStep(s: State, l: Layout, dir: Path, name: string, install: RunOutcome, build: RunOutcome): (r: Outcome)
    ensures Quiet(s, r.state) && r.state.fs == s.fs
    ensures CallsWithin(s, r.state, {NpmInstall(dir), NpmBuild(dir)})
  {
    var s1 := LogStep(s, l, Info, "Installing " + name + " dependencies...");
    if !IsDir(s1.fs, dir) then Raised(s1, NotADirectory(dir))
    else
      var s2 := s1.(calls := s1.calls + [NpmInstall(dir)]);
      match install
      case LaunchFailed => Raised(s2, ToolLaunchFailed("npm"))
      case Finished(code) =>
        if code != 0 then
          Raised(LogStep(s2, l, Error, "Failed to install " + name + " dependencies"), CommandFailed("npm", code))
        else
          var s3 := LogStep(s2, l, Info, name + " dependencies installed");
          var s4 := s3.(calls := s3.calls + [NpmBuild(dir)]);
          match build
          case LaunchFailed => Raised(s4, ToolLaunchFailed("npm"))
          case Finished(b) =>
            if b == 0 then Normal(LogStep(s4, l, Info, name + " built successfully"))
            else Normal(LogStep(s4, l, Warning, name + " build failed (not critical)"))
  }

  function EnvExample(l: Layout): Path { l.DemoDir() + [".env.example"] }

  function EnvFile(l: Layout): Path { l.DemoDir() + [".env"] }

  /** `setup_environment`: copy `.env.example` to `.env` only where `.env` is absent. */
  function EnvironmentStep(s: State, l: Layout): (r: Outcome)
    ensures Quiet(s, r.state) && r.state.calls == s.calls && r.state.progress == s.progress
    ensures forall q | q != EnvFile(l) :: Unchanged(s.fs, r.state.fs, q)
  {
    var s1 := LogStep(s, l, Info, "Setting up environment...");
    if Exists(s1.fs, EnvExample(l)) && !Exists(s1.fs, EnvFile(l)) then
      match CopyFile(s1.fs, EnvExample(l), EnvFile(l))
      case Refused(f) => Raised(s1, f)
      case Changed(fs') => Normal(LogStep(s1.(fs := fs'), l, Info, "Environment file created"))
    else Normal(s1)
  }

  /**
   * One launcher of `create_launchers`: open the script and write its first
   * line; the second line carries an emoji, and when the default encoding
   * cannot encode it the write raises, leaving the first line alone in the
   * file. Otherwise the rest is written and, on POSIX, the script is made
   * executable.
   */
  function ScriptStep(s: State, p: Path, c: Content, os: OsFamily, encodable: bool): (r: Outcome)
    ensures r.state.stream == s.stream && r.state.logFile == s.logFile
    ensures r.state.calls == s.calls && r.state.progress == s.progress
    ensures forall q | q != p :: Unchanged(s.fs, r.state.fs, q)
    ensures r.Normal? <==> encodable && p != [] && !IsDir(s.fs, p) && IsDir(s.fs, Parent(p))
    ensures r.Normal? ==> p in r.state.fs && r.state.fs[p].File? && r.state.fs[p].content == c
    ensures r.Normal? && os == Posix ==> r.state.fs[p].executable
    ensures (p == [] || IsDir(s.fs, p) || !IsDir(s.fs, Parent(p))) ==> r.Raised? && r.state == s
    ensures !encodable && p != [] && !IsDir(s.fs, p) && IsDir(s.fs, Parent(p)) ==>
      && r.Raised? && r.fault == Unencodable(p)
      && p in r.state.fs && r.state.fs[p].File? && r.state.fs[p].content == Text(ScriptHead(os))
  {
    match WriteFile(s.fs, p, Text(ScriptHead(os)))
    case Refused(f) => Raised(s, f)
    case Changed(fs1) =>
      if !encodable then Raised(s.(fs := fs1), Unencodable(p))
      else
        var fs2 := CompleteFile(fs1, p, c);
        Normal(s.(fs := if os == Posix then MarkExecutable(fs2, p) else fs2))
  }

  /** Two changes, each confined to one path, change nothing else. */
  lemma FrameOfTwo(a: Fs, b: Fs, c: Fs, p1: Path, p2: Path)
    requires forall q | q != p1 :: Unchanged(a, b, q)
    requires forall q | q != p2 :: Unchanged(b, c, q)
    ensures forall q | q != p1 && q != p2 :: Unchanged(a, c, q)
  {
    forall q | q != p1 && q != p2 ensures Unchanged(a, c, q) {
      assert Unchanged(a, b, q) && Unchanged(b, c, q);
    }
  }

  /** `create_launchers`: a start and a stop script per OS family; on POSIX both are made executable. */
  function LaunchersStep(s: State, l: Layout, os: OsFamily, encodable: bool): (r: Outcome)
    ensures Quiet(s, r.state) && r.state.calls == s.calls && r.state.progress == s.progress
    ensures forall q | q != l.StartScript(os) && q != l.StopScript(os) :: Unchanged(s.fs, r.state.fs, q)
  {
    var s1 := LogStep(s, l, Info, "Creating launcher scripts...");
    var r2 := ScriptStep(s1, l.StartScript(os), StartScript(os, l.DemoDir()), os, encodable);
    var r3 := ScriptStep(r2.state, l.StopScript(os), StopScript(os, l.DemoDir()), os, encodable);
    FrameOfTwo(s.fs, r2.state.fs, r3.state.fs, l.StartScript(os), l.StopScript(os));
    if r2.Raised? then r2
    else if r3.Raised? then r3
    else Normal(LogStep(r3.state, l, Info, "Launcher scripts created"))
  }

  // ---------------------------------------------------------------- the orchestrator

  /** The steps after the requirements check, in the order `install` runs them. */
  datatype Phase =
    | MakeDirectories
    | AcquireDemo
    | AcquireCore
    | SkipCore
    | InstallDependencies
    | ConfigureEnvironment
    | CreateLaunchers

  /**
   * The phases of `install` in order: the directories come first, the core is
   * acquired exactly when asked for and skipped otherwise, and every phase
   * runs once.
   */
  function Phases(installCore: bool): (phases: seq<Phase>)
    ensures |phases| == 6 && phases[0] == MakeDirectories && phases[|phases| - 1] == CreateLaunchers
    ensures AcquireCore in phases <==> installCore
    ensures SkipCore in phases <==> !installCore
    ensures forall i, j | 0 <= i < j < |phases| :: phases[i] != phases[j]
  {
    [MakeDirectories, AcquireDemo, if installCore then AcquireCore else SkipCore,
     InstallDependencies, ConfigureEnvironment, CreateLaunchers]
  }

  /** The checkpoint reported once a phase has returned normally. */
  function CheckpointOf(ph: Phase): (e: ProgressEvent)
    ensures IsCheckpoint(e) && 20 <= e.value <= 100
    ensures e.value == 60 <==> ph.AcquireCore? || ph.SkipCore?
  {
    match ph
    case MakeDirectories => ProgressEvent(20, DirectoriesCreated)
    case AcquireDemo => ProgressEvent(40, DemoDownloaded)
    case AcquireCore => ProgressEvent(60, CoreDownloaded)
    case SkipCore => ProgressEvent(60, CoreSkipped)
    case InstallDependencies => ProgressEvent(80, DependenciesInstalled)
    case ConfigureEnvironment => ProgressEvent(90, EnvironmentConfigured)
    case CreateLaunchers => ProgressEvent(100, Completed)
  }

  /** Whether phase `ph` leaves path `q` alone. */
  ghost predicate Untouched(ph: Phase, l: Layout, os: OsFamily, q: Path)
  {
    match ph
    case MakeDirectories => q != l.installDir && q != l.DemoDir() && q != l.CoreDir()
    case AcquireDemo => !(l.DemoDir() <= q)
    case AcquireCore => !(l.CoreDir() <= q)
    case SkipCore => true
    case InstallDependencies => true
    case ConfigureEnvironment => q != EnvFile(l)
    case CreateLaunchers => q != l.StartScript(os) && q != l.StopScript(os)
  }

  /** The external operations a phase may start. */
  function PhaseCalls(ph: Phase, l: Layout): set<External>
  {
    match ph
    case AcquireDemo => AcquireCalls(DemoRepo, DemoZip, l.DemoDir())
    case AcquireCore => AcquireCalls(CoreRepo, CoreZip, l.CoreDir())
    case InstallDependencies => {NpmInstall(l.DemoDir()), NpmBuild(l.DemoDir())}
    case _ => {}
  }

  function RunPhase(ph: Phase, s: State, l: Layout, w: World): (r: Outcome)
    ensures Quiet(s, r.state)
    ensures forall q | Untouched(ph, l, w.os, q) :: Unchanged(s.fs, r.state.fs, q)
    ensures CallsWithin(s, r.state, PhaseCalls(ph, l))
  {
    match ph
    case MakeDirectories => DirectoriesStep(s, l)
    case AcquireDemo => AcquireStep(s, l, DemoRepo, DemoZip, l.DemoDir(), "Demo", w.demo)
    case AcquireCore => AcquireStep(s, l, CoreRepo, CoreZip, l.CoreDir(), "Core", w.core)
    case SkipCore => Normal(s)
    case InstallDependencies => DependenciesStep(s, l, l.DemoDir(), "Demo", w.npmInstall, w.npmBuild)
    case ConfigureEnvironment => EnvironmentStep(s, l)
    case CreateLaunchers => LaunchersStep(s, l, w.os, w.emojiEncodable)
  }

  /** The `except` clause of `install`. */
  function FailStep(s: State, l: Layout, f: Fault): (t: State)
    ensures Quiet(s, t) && t.fs == s.fs && t.calls == s.calls
    ensures t.stream == s.stream + [LogRecord(Error, "Installation failed: " + FaultText(f))]
  {
    LogStep(s, l, Error, "Installation failed: " + FaultText(f))
  }

  /** Run the phases in order, reporting each one's checkpoint; the first exception ends the run. */
  function RunPhases(phases: seq<Phase>, s: State, l: Layout, w: World): (r: (State, bool))
    decreases |phases|
  {
    if phases == [] then (LogStep(s, l, Info, "Installation completed successfully!"), true)
    else
      match RunPhase(phases[0], s, l, w)
      case Raised(t, f) => (FailStep(t, l, f), false)
      case Normal(t) => RunPhases(phases[1..], ProgressStep(t, CheckpointOf(phases[0])), l, w)
  }

  /** `install`: report 0, check the requirements, report 10, then run the phases. */
  function RunInstall(s: State, l: Layout, installCore: bool, w: World): (r: (State, bool))
  {
    var s0 := ProgressStep(s, ProgressEvent(0, Starting));
    var (s1, ok) := RequirementsStep(s0, l, w);
    if !ok then (LogStep(s1, l, Error, "System requirements not met"), false)
    else RunPhases(Phases(installCore), ProgressStep(s1, ProgressEvent(10, RequirementsChecked)), l, w)
  }
}
