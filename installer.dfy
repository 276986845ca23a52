/**
 * The installer object. Its fields are the state the Python class and its
 * surroundings change while it runs: the layout derived from the install
 * root, the host filesystem, the log stream (console and log callback), the
 * log file, the progress reports and the external operations started.
 *
 * Every method is proved to change that state exactly as the matching
 * function of `Steps` says, so the lemmas about those functions hold of the
 * installer.
 */
module Orchestrator {
  import opened Paths
  import opened Events
  import opened Files
  import opened Probing
  import opened DownloadProgress
  import opened Steps

  class AnarQQInstaller {
    var layout: Layout
    var fs: Fs
    var stream: seq<LogRecord>
    var logFile: seq<LogRecord>
    var progress: seq<ProgressEvent>
    var calls: seq<External>

    function Snapshot(): State
      reads this
    {
      State(fs, stream, logFile, progress, calls)
    }

    /**
     * The installer for the user whose home is `home`, on a host whose
     * filesystem is `hostFs` and whose `install.log` already holds `previousLog`.
     */
    constructor (home: Path, hostFs: Fs, previousLog: seq<LogRecord>)
      ensures layout == DefaultLayout(home)
      ensures Snapshot() == State(hostFs, [], previousLog, [], [])
    {
      layout := Layout(home + [DefaultRootName]);
      fs := hostFs;
      stream := [];
      logFile := previousLog;
      progress := [];
      calls := [];
    }

    method Log(level: Level, message: string)
      modifies this
      ensures layout == old(layout) && fs == old(fs) && progress == old(progress) && calls == old(calls)
      ensures stream == old(stream) + [LogRecord(level, message)]
      ensures logFile == if IsDir(fs, layout.installDir) then old(logFile) + [LogRecord(level, message)] else old(logFile)
    {
      var entry := LogRecord(level, message);
      if IsDir(fs, layout.installDir) {
        logFile := logFile + [entry];
      }
      stream := stream + [entry];
    }

    method UpdateProgress(value: int, stage: Label)
      modifies this
      ensures layout == old(layout) && fs == old(fs) && stream == old(stream) && logFile == old(logFile) && calls == old(calls)
      ensures progress == old(progress) + [ProgressEvent(value, stage)]
    {
      progress := progress + [ProgressEvent(value, stage)];
    }

    method CheckCommand(tool: string, outcome: ProbeOutcome) returns (available: bool, version: string)
      modifies this
      ensures layout == old(layout) && fs == old(fs) && stream == old(stream) && logFile == old(logFile)
      ensures progress == old(progress) && calls == old(calls) + [VersionQuery(tool)]
      ensures (available, version) == VersionProbe(outcome)
    {
      calls := calls + [VersionQuery(tool)];
      match outcome
      case Exited(code, stdout) =>
        available, version := code == 0, Strip(stdout);
      case _ =>
        available, version := false, "";
    }

    /** One probe of `check_system_requirements`: the tool's version when found, `missing` otherwise. */
    method ReportTool(tool: string, outcome: ProbeOutcome, found: string, missing: LogRecord) returns (available: bool)
      modifies this
      ensures layout == old(layout) && fs == old(fs) && progress == old(progress)
      ensures calls == old(calls) + [VersionQuery(tool)]
      ensures stream == old(stream) + [ProbeRecord(outcome, found, missing)]
      ensures logFile == if IsDir(fs, layout.installDir) then old(logFile) + [ProbeRecord(outcome, found, missing)] else old(logFile)
      ensures available == Answers(outcome)
    {
      var version;
      available, version := CheckCommand(tool, outcome);
      if available {
        Log(Info, found + version);
      } else {
        Log(missing.level, missing.message);
      }
    }

    /** The free-space probe of `check_system_requirements`; `short` when it read too little. */
    method ReportDisk(disk: DiskProbe) returns (short: bool)
      modifies this
      ensures layout == old(layout) && fs == old(fs) && progress == old(progress) && calls == old(calls)
      ensures stream == old(stream) + [DiskRecord(disk)]
      ensures logFile == if IsDir(fs, layout.installDir) then old(logFile) + [DiskRecord(disk)] else old(logFile)
      ensures short == DiskShort(disk)
    {
      short := false;
      match disk
      case FreeBytes(free) =>
        if free >= RequiredDiskBytes {
          Log(Info, "Disk space available");
        } else {
          Log(Error, "Insufficient disk space");
          short := true;
        }
      case DiskUnreadable =>
        Log(Warning, "Could not check disk space");
    }

    method CheckSystemRequirements(w: World) returns (ok: bool)
      modifies this
      ensures layout == old(layout)
      ensures (Snapshot(), ok) == RequirementsStep(old(Snapshot()), layout, w)
    {
      Log(Info, "Checking system requirements...");
      var errors := 0;
      Log(Info, "Python version: " + w.pythonVersion);
      var nodeAvailable := ReportTool("node", w.node, "Node.js found: ", LogRecord(Error, "Node.js not found"));
      if !nodeAvailable {
        errors := errors + 1;
      }
      var npmAvailable := ReportTool("npm", w.npm, "npm found: ", LogRecord(Error, "npm not found"));
      if !npmAvailable {
        errors := errors + 1;
      }
      var _ := ReportTool("git", w.git, "Git found: ", LogRecord(Warning, "Git not found (will use ZIP download)"));
      var _ := ReportTool("docker", w.docker, "Docker found: ", LogRecord(Info, "Docker not found (optional)"));
      var short := ReportDisk(w.disk);
      if short {
        errors := errors + 1;
      }
      ok := errors == 0;

      AppendSeven(old(stream), RequirementsLog(w));
      AppendSeven(old(logFile), RequirementsLog(w));
      AppendFour(old(calls), ProbedTools);
    }

    method SetupDirectories() returns (fault: Option<Fault>)
      modifies this
      ensures layout == old(layout)
      ensures Snapshot() == DirectoriesStep(old(Snapshot()), layout).state
      ensures fault == FaultOf(DirectoriesStep(old(Snapshot()), layout))
    {
      Log(Info, "Setting up directories...");
      var made := Mkdir(fs, layout.installDir);
      if made.Refused? {
        return Some(made.fault);
      }
      fs := made.fs;
      made := Mkdir(fs, layout.DemoDir());
      if made.Refused? {
        return Some(made.fault);
      }
      fs := made.fs;
      made := Mkdir(fs, layout.CoreDir());
      if made.Refused? {
        return Some(made.fault);
      }
      fs := made.fs;
      Log(Info, "Directories created");
      fault := None;
    }

    /** `progress_hook`: forward a percentage when the total size is known. */
    method ProgressHook(report: HookCall, description: string)
      modifies this
      ensures layout == old(layout)
      ensures fs == old(fs) && stream == old(stream) && logFile == old(logFile) && calls == old(calls)
      ensures progress == old(progress) + HookEvents([report], description)
    {
      if report.totalSize > 0 {
        var percent := Percent(report.blockNum, report.blockSize, report.totalSize);
        UpdateProgress(percent, Downloading(description));
      }
    }

    method DownloadFile(url: string, description: string, d: Download) returns (fault: Option<Fault>)
      modifies this
      ensures layout == old(layout)
      ensures Snapshot() == DownloadStep(old(Snapshot()), layout, url, description, d).state
      ensures fault == FaultOf(DownloadStep(old(Snapshot()), layout, url, description, d))
    {
      Log(Info, "Downloading " + description + "...");
      calls := calls + [Fetch(url)];
      ghost var started := Snapshot();
      var i := 0;
      while i < |d.reports|
        invariant 0 <= i <= |d.reports|
        invariant layout == old(layout)
        invariant fs == started.fs && stream == started.stream && logFile == started.logFile && calls == started.calls
        invariant progress == started.progress + HookEvents(d.reports[..i], description)
      {
        ProgressHook(d.reports[i], description);
        HookEventsAppend(d.reports[..i], d.reports[i], description);
        assert d.reports[..i + 1] == d.reports[..i] + [d.reports[i]];
        i := i + 1;
      }
      assert d.reports[..i] == d.reports;
      if !d.completed {
        return Some(DownloadFailed(url));
      }
      Log(Info, "Downloaded " + description);
      fault := None;
    }

    method ExtractZip(url: string, description: string, e: Extraction) returns (fault: Option<Fault>)
      modifies this
      ensures layout == old(layout)
      ensures Snapshot() == ExtractStep(old(Snapshot()), layout, url, description, e).state
      ensures fault == FaultOf(ExtractStep(old(Snapshot()), layout, url, description, e))
    {
      Log(Info, "Extracting " + description + "...");
      calls := calls + [Unpack(url)];
      if e.ExtractFailed? {
        return Some(BadArchive(url));
      }
      Log(Info, "Extracted " + description);
      fault := None;
    }

    method CloneOrDownloadRepo(repoUrl: string, zipUrl: string, dest: Path, name: string, aw: AcquireWorld)
      returns (fault: Option<Fault>)
      modifies this
      ensures layout == old(layout)
      ensures Snapshot() == AcquireStep(old(Snapshot()), layout, repoUrl, zipUrl, dest, name, aw).state
      ensures fault == FaultOf(AcquireStep(old(Snapshot()), layout, repoUrl, zipUrl, dest, name, aw))
    {
      var gitAvailable, _ := CheckCommand("git", aw.gitProbe);
      if gitAvailable {
        fault := CloneWithGit(repoUrl, zipUrl, dest, name, aw);
      } else {
        fault := DownloadZip(zipUrl, dest, name, aw);
      }
    }

    /** The git branch of `clone_or_download_repo`: pull or clone, and fall back to the archive when git fails. */
    method CloneWithGit(repoUrl: string, zipUrl: string, dest: Path, name: string, aw: AcquireWorld)
      returns (fault: Option<Fault>)
      modifies this
      ensures layout == old(layout)
      ensures Snapshot() == GitStep(old(Snapshot()), layout, repoUrl, zipUrl, dest, name, aw).state
      ensures fault == FaultOf(GitStep(old(Snapshot()), layout, repoUrl, zipUrl, dest, name, aw))
    {
      Log(Info, "Cloning " + name + " repository...");
      var pull := Exists(fs, dest) && Exists(fs, dest + [".git"]);
      calls := calls + [if pull then GitPull(dest) else GitClone(repoUrl, dest)];
      ghost var launched := Snapshot();
      match aw.gitRun
      case LaunchFailed =>
        return Some(ToolLaunchFailed("git"));
      case Finished(code) =>
        if code == 0 {
          fs := Replace(fs, dest, WorkingCopy(aw.workingCopy));
          Log(Info, (if pull then "Updated " else "Cloned ") + name + " repository");
          assert Snapshot() == GitDoneStep(launched, layout, dest, name, pull, aw.workingCopy).state;
          return None;
        }
        Log(Warning, "Git clone failed");
        fault := DownloadZip(zipUrl, dest, name, aw);
        assert Snapshot() == GitFallbackStep(launched, layout, zipUrl, dest, name, aw).state;
    }

    /** The archive fallback at the end of `clone_or_download_repo`. */
    method DownloadZip(zipUrl: string, dest: Path, name: string, aw: AcquireWorld) returns (fault: Option<Fault>)
      modifies this
      ensures layout == old(layout)
      ensures Snapshot() == ZipFallbackStep(old(Snapshot()), layout, zipUrl, dest, name, aw).state
      ensures fault == FaultOf(ZipFallbackStep(old(Snapshot()), layout, zipUrl, dest, name, aw))
    {
      Log(Info, "Downloading " + name + " as ZIP...");
      var description := name + " repository";
      fault := DownloadFile(zipUrl, description, aw.download);
      if fault.Some? {
        return;
      }
      fault := ExtractZip(zipUrl, description, aw.extraction);
      if fault.Some? {
        return;
      }
      if aw.extraction.ExtractedNothing? {
        return Some(ExtractionMissing(zipUrl));
      }
      var entries := aw.extraction.entries;
      if entries != [] {
        if Exists(fs, dest) && !IsDir(fs, dest) {
          return Some(NotADirectory(dest));
        }
        fs := Replace(fs, dest, entries[0]);
        Log(Info, "Downloaded and extracted " + name);
      }
    }

    method InstallDependencies(dir: Path, name: string, install: RunOutcome, build: RunOutcome)
      returns (fault: Option<Fault>)
      modifies this
      ensures layout == old(layout)
      ensures Snapshot() == DependenciesStep(old(Snapshot()), layout, dir, name, install, build).state
      ensures fault == FaultOf(DependenciesStep(old(Snapshot()), layout, dir, name, install, build))
    {
      Log(Info, "Installing " + name + " dependencies...");
      if !IsDir(fs, dir) {
        return Some(NotADirectory(dir));
      }
      calls := calls + [NpmInstall(dir)];
      match install
      case LaunchFailed =>
        return Some(ToolLaunchFailed("npm"));
      case Finished(code) =>
        if code != 0 {
          Log(Error, "Failed to install " + name + " dependencies");
          return Some(CommandFailed("npm", code));
        }
      Log(Info, name + " dependencies installed");
      calls := calls + [NpmBuild(dir)];
      match build
      case LaunchFailed =>
        return Some(ToolLaunchFailed("npm"));
      case Finished(code) =>
        if code == 0 {
          Log(Info, name + " built successfully");
        } else {
          Log(Warning, name + " build failed (not critical)");
        }
      fault := None;
    }

    method SetupEnvironment() returns (fault: Option<Fault>)
      modifies this
      ensures layout == old(layout)
      ensures Snapshot() == EnvironmentStep(old(Snapshot()), layout).state
      ensures fault == FaultOf(EnvironmentStep(old(Snapshot()), layout))
    {
      Log(Info, "Setting up environment...");
      var example, env := EnvExample(layout), EnvFile(layout);
      if Exists(fs, example) && !Exists(fs, env) {
        var copied := CopyFile(fs, example, env);
        if copied.Refused? {
          return Some(copied.fault);
        }
        fs := copied.fs;
        Log(Info, "Environment file created");
      }
      fault := None;
    }

    method CreateLaunchers(os: OsFamily, encodable: bool) returns (fault: Option<Fault>)
      modifies this
      ensures layout == old(layout)
      ensures Snapshot() == LaunchersStep(old(Snapshot()), layout, os, encodable).state
      ensures fault == FaultOf(LaunchersStep(old(Snapshot()), layout, os, encodable))
    {
      Log(Info, "Creating launcher scripts...");
      var start, stop := layout.StartScript(os), layout.StopScript(os);
      var written := WriteFile(fs, start, Text(ScriptHead(os)));
      if written.Refused? {
        return Some(written.fault);
      }
      fs := written.fs;
      if !encodable {
        return Some(Unencodable(start));
      }
      fs := CompleteFile(fs, start, StartScript(os, layout.DemoDir()));
      if os == Posix {
        fs := MarkExecutable(fs, start);
      }
      written := WriteFile(fs, stop, Text(ScriptHead(os)));
      if written.Refused? {
        return Some(written.fault);
      }
      fs := written.fs;
      fs := CompleteFile(fs, stop, StopScript(os, layout.DemoDir()));
      if os == Posix {
        fs := MarkExecutable(fs, stop);
      }
      Log(Info, "Launcher scripts created");
      fault := None;
    }

    /**
     * One step of `install` after the requirements check: run the phase and,
     * when it returns normally, report its checkpoint.
     */
    method Perform(ph: Phase, w: World) returns (fault: Option<Fault>)
      modifies this
      ensures layout == old(layout)
      ensures fault == FaultOf(RunPhase(ph, old(Snapshot()), layout, w))
      ensures Snapshot() == if fault.Some? then RunPhase(ph, old(Snapshot()), layout, w).state
                            else ProgressStep(RunPhase(ph, old(Snapshot()), layout, w).state, CheckpointOf(ph))
    {
      match ph {
        case MakeDirectories => fault := SetupDirectories();
        case AcquireDemo => fault := CloneOrDownloadRepo(DemoRepo, DemoZip, layout.DemoDir(), "Demo", w.demo);
        case AcquireCore => fault := CloneOrDownloadRepo(CoreRepo, CoreZip, layout.CoreDir(), "Core", w.core);
        case SkipCore => fault := None;
        case InstallDependencies => fault := InstallDependencies(layout.DemoDir(), "Demo", w.npmInstall, w.npmBuild);
        case ConfigureEnvironment => fault := SetupEnvironment();
        case CreateLaunchers => fault := CreateLaunchers(w.os, w.emojiEncodable);
      }
      if fault.None? {
        var checkpoint := CheckpointOf(ph);
        UpdateProgress(checkpoint.value, checkpoint.stage);
      }
    }

    /**
     * `install`: the steps in order, a checkpoint after each; the first
     * exception ends the run with an ERROR record and `false`.
     */
    method Install(installCore: bool, w: World) returns (success: bool)
      modifies this
      ensures layout == old(layout)
      ensures (Snapshot(), success) == RunInstall(old(Snapshot()), layout, installCore, w)
    {
      UpdateProgress(0, Starting);
      var met := CheckSystemRequirements(w);
      if !met {
        Log(Error, "System requirements not met");
        return false;
      }
      UpdateProgress(10, RequirementsChecked);
      success := PerformPhases(installCore, w);
    }

    /**
     * The part of `install` after the requirements: the phases in order, a
     * checkpoint after each, then the completion record; the first exception
     * ends the run with an ERROR record and `false`.
     */
    method PerformPhases(installCore: bool, w: World) returns (success: bool)
      modifies this
      ensures layout == old(layout)
      ensures (Snapshot(), success) == RunPhases(Phases(installCore), old(Snapshot()), layout, w)
    {
      ghost var goal := RunPhases(Phases(installCore), Snapshot(), layout, w);
      ghost var rest := Phases(installCore);
      var fault := Proceed(MakeDirectories, goal, rest, None, w);
      rest := rest[1..];
      fault := Proceed(AcquireDemo, goal, rest, fault, w);
      rest := rest[1..];
      fault := Proceed(if installCore then AcquireCore else SkipCore, goal, rest, fault, w);
      rest := rest[1..];
      fault := Proceed(Phase.InstallDependencies, goal, rest, fault, w);
      rest := rest[1..];
      fault := Proceed(ConfigureEnvironment, goal, rest, fault, w);
      rest := rest[1..];
      fault := Proceed(Phase.CreateLaunchers, goal, rest, fault, w);
      rest := rest[1..];
      if fault.Some? {
        Log(Error, "Installation failed: " + FaultText(fault.value));
        return false;
      }
      assert |rest| == 0;
      Log(Info, "Installation completed successfully!");
      success := true;
    }

    /**
     * One statement of the `try` block of `install`: phase `ph` runs unless
     * an earlier one raised, in which case the exception passes it by.
     */
    method Proceed(ph: Phase, ghost goal: (State, bool), ghost rest: seq<Phase>, fault: Option<Fault>, w: World)
      returns (fault': Option<Fault>)
      requires rest != [] && rest[0] == ph && Pending(goal, rest, Snapshot(), fault, w)
      modifies this
      ensures layout == old(layout)
      ensures Pending(goal, rest[1..], Snapshot(), fault', w)
      ensures fault.Some? ==> fault' == fault && Snapshot() == old(Snapshot())
    {
      if fault.Some? {
        return fault;
      }
      fault' := Perform(ph, w);
    }

    /** What is left of the run `goal` once the phases before `rest` have run, reaching `s`. */
    ghost predicate Pending(goal: (State, bool), rest: seq<Phase>, s: State, fault: Option<Fault>, w: World)
      reads this
    {
      if fault.Some? then goal == (FailStep(s, layout, fault.value), false)
      else goal == RunPhases(rest, s, layout, w)
    }
  }
}
