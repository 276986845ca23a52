/**
 * What an installation run guarantees, stated about the step functions and
 * proved once for every outside world: the checkpoints a run reports, how it
 * ends, what it may touch on disk, which operations it may start, and how
 * each step decides between success, warning and failure.
 */
module InstallProperties {
  import opened Paths
  import opened Events
  import opened Files
  import opened Probing
  import opened DownloadProgress
  import opened Steps

  // ---------------------------------------------------------------- checkpoints

  /** The checkpoint values a list of phases reports when every one of them returns normally. */
  function CheckpointValues(phases: seq<Phase>): (r: seq<int>)
    ensures |r| == |phases|
    ensures forall i | 0 <= i < |phases| :: r[i] == CheckpointOf(phases[i]).value
  {
    if phases == [] then [] else [CheckpointOf(phases[0]).value] + CheckpointValues(phases[1..])
  }

  /** The checkpoints the phases report when they all return normally, with or without the core. */
  const PhaseMilestones: seq<int> := [20, 40, 60, 80, 90, 100]

  /** The checkpoints of a complete run: 0, 10, then one per phase. */
  const Milestones: seq<int> := [0, 10] + PhaseMilestones

  /** Running phases only appends to the logs, the progress reports and the calls. */
  lemma {:induction false} PhasesExtend(phases: seq<Phase>, s: State, l: Layout, w: World)
    ensures Extends(s, RunPhases(phases, s, l, w).0)
    decreases |phases|
  {
    if phases != [] {
      match RunPhase(phases[0], s, l, w)
      case Raised(t, f) =>
      case Normal(t) =>
        PhasesExtend(phases[1..], ProgressStep(t, CheckpointOf(phases[0])), l, w);
    }
  }

  /**
   * Running phases reports a prefix of their checkpoint values as new
   * checkpoints, the whole of them exactly when the run succeeds.
   */
  lemma {:induction false} PhasesReportPrefix(phases: seq<Phase>, s: State, l: Layout, w: World)
    ensures var r := RunPhases(phases, s, l, w);
      && Checkpoints(s.progress) <= Checkpoints(r.0.progress)
      && Checkpoints(r.0.progress)[|Checkpoints(s.progress)|..] <= CheckpointValues(phases)
      && (r.1 <==> Checkpoints(r.0.progress)[|Checkpoints(s.progress)|..] == CheckpointValues(phases))
    decreases |phases|
  {
    var r := RunPhases(phases, s, l, w);
    if phases == [] {
      assert Checkpoints(r.0.progress) == Checkpoints(s.progress);
    } else {
      match RunPhase(phases[0], s, l, w)
      case Raised(t, f) =>
        assert Checkpoints(r.0.progress) == Checkpoints(s.progress);
      case Normal(t) =>
        var t' := ProgressStep(t, CheckpointOf(phases[0]));
        ReportCheckpoint(t, CheckpointOf(phases[0]));
        PhasesReportPrefix(phases[1..], t', l, w);
        assert CheckpointValues(phases) == [CheckpointOf(phases[0]).value] + CheckpointValues(phases[1..]);
        PrefixAfterOne(Checkpoints(s.progress), CheckpointOf(phases[0]).value, Checkpoints(r.0.progress), CheckpointValues(phases[1..]));
    }
  }

  /** Reporting a checkpoint adds its value to the checkpoints reported so far. */
  lemma ReportCheckpoint(t: State, ev: ProgressEvent)
    requires IsCheckpoint(ev)
    ensures Checkpoints(ProgressStep(t, ev).progress) == Checkpoints(t.progress) + [ev.value]
  {
    CheckpointsAppend(t.progress, [ev]);
    assert Checkpoints([ev]) == [ev.value] + Checkpoints([ev][1..]);
  }

  /** What follows `before + [v]` in `after` is a prefix of `rest` exactly when what follows `before` is a prefix of `[v] + rest`. */
  lemma PrefixAfterOne(before: seq<int>, v: int, after: seq<int>, rest: seq<int>)
    requires before + [v] <= after
    ensures before <= after
    ensures after[|before| + 1..] <= rest <==> after[|before|..] <= [v] + rest
    ensures after[|before| + 1..] == rest <==> after[|before|..] == [v] + rest
  {
    assert after[|before|..] == [v] + after[|before| + 1..];
  }

  lemma PhasesCheckpointValues(installCore: bool)
    ensures CheckpointValues(Phases(installCore)) == PhaseMilestones
  {
  }

  /**
   * A run reports a prefix of 0, 10, 20, 40, 60, 80, 90, 100 as its
   * checkpoints, all of them exactly when it succeeds, whether or not the
   * core is installed; when the requirements are not met, only 0.
   */
  lemma RunReportsMilestones(s: State, l: Layout, installCore: bool, w: World)
    ensures var r := RunInstall(s, l, installCore, w);
      && Checkpoints(s.progress) <= Checkpoints(r.0.progress)
      && Checkpoints(r.0.progress)[|Checkpoints(s.progress)|..] <= Milestones
      && (r.1 <==> Checkpoints(r.0.progress)[|Checkpoints(s.progress)|..] == Milestones)
      && (!RequirementsMet(w) ==> Checkpoints(r.0.progress)[|Checkpoints(s.progress)|..] == [0])
  {
    var before := Checkpoints(s.progress);
    var r := RunInstall(s, l, installCore, w);
    var s1 := RequirementsStep(ProgressStep(s, ProgressEvent(0, Starting)), l, w).0;
    RequirementsCheckpoints(s, l, w);
    if !RequirementsMet(w) {
      assert Checkpoints(r.0.progress) == before + [0];
      assert Checkpoints(r.0.progress)[|before|..] == [0];
    } else {
      MetRunReportsMilestones(s, l, installCore, w);
    }
  }

  lemma MetRunReportsMilestones(s: State, l: Layout, installCore: bool, w: World)
    requires RequirementsMet(w)
    ensures var r := RunInstall(s, l, installCore, w);
      && Checkpoints(s.progress) <= Checkpoints(r.0.progress)
      && Checkpoints(r.0.progress)[|Checkpoints(s.progress)|..] <= Milestones
      && (r.1 <==> Checkpoints(r.0.progress)[|Checkpoints(s.progress)|..] == Milestones)
  {
    MetRunIsPhases(s, l, installCore, w);
    PhasesReportMilestones(Checkpoints(s.progress), AfterRequirements(s, l, w), l, installCore, w);
  }

  /** Once the requirements are met, a run is its phases, started after checkpoints 0 and 10. */
  lemma MetRunIsPhases(s: State, l: Layout, installCore: bool, w: World)
    requires RequirementsMet(w)
    ensures RunInstall(s, l, installCore, w) == RunPhases(Phases(installCore), AfterRequirements(s, l, w), l, w)
    ensures Checkpoints(AfterRequirements(s, l, w).progress) == Checkpoints(s.progress) + [0] + [10]
  {
    var s1 := RequirementsStep(ProgressStep(s, ProgressEvent(0, Starting)), l, w).0;
    RequirementsCheckpoints(s, l, w);
    ReportCheckpoint(s1, ProgressEvent(10, RequirementsChecked));
  }

  /** The phases, run after checkpoints 0 and 10, complete a prefix of the milestones. */
  lemma PhasesReportMilestones(before: seq<int>, t: State, l: Layout, installCore: bool, w: World)
    requires Checkpoints(t.progress) == before + [0] + [10]
    ensures var r := RunPhases(Phases(installCore), t, l, w);
      && before <= Checkpoints(r.0.progress)
      && Checkpoints(r.0.progress)[|before|..] <= Milestones
      && (r.1 <==> Checkpoints(r.0.progress)[|before|..] == Milestones)
  {
    var r := RunPhases(Phases(installCore), t, l, w);
    PhasesReportPrefix(Phases(installCore), t, l, w);
    PhasesCheckpointValues(installCore);
    PrefixAfterTwo(before, Checkpoints(r.0.progress), PhaseMilestones);
  }

  /** What follows `before + [0, 10]` is a prefix of `rest` exactly when what follows `before` is one of `[0, 10] + rest`. */
  lemma PrefixAfterTwo(before: seq<int>, after: seq<int>, rest: seq<int>)
    requires before + [0] + [10] <= after
    ensures before <= after
    ensures after[|before + [0] + [10]|..] <= rest <==> after[|before|..] <= [0, 10] + rest
    ensures after[|before + [0] + [10]|..] == rest <==> after[|before|..] == [0, 10] + rest
  {
    PrefixAfterOne(before + [0], 10, after, rest);
    PrefixAfterOne(before, 0, after, [10] + rest);
    assert [0] + ([10] + rest) == [0, 10] + rest;
  }

  /** The requirements check reports 0 and no other checkpoint. */
  lemma RequirementsCheckpoints(s: State, l: Layout, w: World)
    ensures Checkpoints(RequirementsStep(ProgressStep(s, ProgressEvent(0, Starting)), l, w).0.progress)
      == Checkpoints(s.progress) + [0]
  {
    ReportCheckpoint(s, ProgressEvent(0, Starting));
  }

  // ---------------------------------------------------------------- how a run ends

  /** The last record a run leaves in the log stream. */
  function LastRecord(records: seq<LogRecord>): LogRecord
    requires records != []
  {
    records[|records| - 1]
  }

  /**
   * Phases end with a success record when they all return normally, and with
   * an ERROR record naming the exception when one raises.
   */
  lemma {:induction false} PhasesEndWithVerdict(phases: seq<Phase>, s: State, l: Layout, w: World)
    ensures var r := RunPhases(phases, s, l, w);
      && r.0.stream != []
      && (r.1 ==> LastRecord(r.0.stream) == LogRecord(Info, "Installation completed successfully!"))
      && (!r.1 ==> exists f :: LastRecord(r.0.stream) == LogRecord(Error, "Installation failed: " + FaultText(f)))
    decreases |phases|
  {
    if phases != [] {
      match RunPhase(phases[0], s, l, w)
      case Raised(t, f) =>
        assert LastRecord(FailStep(t, l, f).stream) == LogRecord(Error, "Installation failed: " + FaultText(f));
      case Normal(t) =>
        PhasesEndWithVerdict(phases[1..], ProgressStep(t, CheckpointOf(phases[0])), l, w);
    }
  }

  /**
   * `install` returns `False` only after logging an ERROR record as its last
   * line, and `True` only after logging completion.
   */
  lemma RunEndsWithVerdict(s: State, l: Layout, installCore: bool, w: World)
    ensures var r := RunInstall(s, l, installCore, w);
      && r.0.stream != []
      && (r.1 ==> LastRecord(r.0.stream) == LogRecord(Info, "Installation completed successfully!"))
      && (!r.1 ==> LastRecord(r.0.stream).level == Error)
  {
    var s1 := RequirementsStep(ProgressStep(s, ProgressEvent(0, Starting)), l, w).0;
    if RequirementsMet(w) {
      PhasesEndWithVerdict(Phases(installCore), ProgressStep(s1, ProgressEvent(10, RequirementsChecked)), l, w);
    }
  }

  /**
   * When the requirements are not met the run returns `False` right after
   * the probes: progress 0 is the only report, the filesystem is untouched,
   * the probes are the only operations, and the last line is an ERROR.
   */
  lemma RequirementsFailureAborts(s: State, l: Layout, installCore: bool, w: World)
    requires !RequirementsMet(w)
    ensures var r := RunInstall(s, l, installCore, w);
      && !r.1
      && r.0.fs == s.fs
      && r.0.progress == s.progress + [ProgressEvent(0, Starting)]
      && r.0.calls == s.calls + ProbedTools
      && r.0.stream == s.stream + RequirementsLog(w) + [LogRecord(Error, "System requirements not met")]
  {
  }

  /** Whatever git and docker answer, the verdict on the requirements is the same. */
  lemma RequirementsIgnoreOptionalTools(w: World, git: ProbeOutcome, docker: ProbeOutcome)
    ensures RequirementsMet(w.(git := git, docker := docker)) == RequirementsMet(w)
  {
  }

  // ---------------------------------------------------------------- what a run may touch

  /** Every phase in `phases` leaves `q` alone. */
  ghost predicate AllUntouched(phases: seq<Phase>, l: Layout, os: OsFamily, q: Path)
  {
    forall i | 0 <= i < |phases| :: Untouched(phases[i], l, os, q)
  }

  lemma {:induction false} PhasesFrame(phases: seq<Phase>, s: State, l: Layout, w: World, q: Path)
    requires AllUntouched(phases, l, w.os, q)
    ensures Unchanged(s.fs, RunPhases(phases, s, l, w).0.fs, q)
    decreases |phases|
  {
    if phases != [] {
      assert Untouched(phases[0], l, w.os, q);
      match RunPhase(phases[0], s, l, w)
      case Raised(t, f) =>
      case Normal(t) =>
        assert AllUntouched(phases[1..], l, w.os, q) by {
          forall i | 0 <= i < |phases| - 1 ensures Untouched(phases[1..][i], l, w.os, q) {
            assert phases[1..][i] == phases[i + 1];
          }
        }
        PhasesFrame(phases[1..], ProgressStep(t, CheckpointOf(phases[0])), l, w, q);
    }
  }

  /** The state once the requirements have passed and progress 10 is reported. */
  function AfterRequirements(s: State, l: Layout, w: World): (t: State)
    ensures t.fs == s.fs
  {
    ProgressStep(RequirementsStep(ProgressStep(s, ProgressEvent(0, Starting)), l, w).0, ProgressEvent(10, RequirementsChecked))
  }

  /** A path below a path below `a` is below `a`. */
  lemma PrefixChain(a: Path, b: Path, c: Path)
    requires a <= b
    ensures b <= c ==> a <= c
  {
  }

  /** Nothing outside the install directory changes, whatever the run does. */
  lemma RunStaysInsideInstallDir(s: State, l: Layout, installCore: bool, w: World, q: Path)
    requires !(l.installDir <= q)
    ensures Unchanged(s.fs, RunInstall(s, l, installCore, w).0.fs, q)
  {
    if RequirementsMet(w) {
      OutsideUntouched(l, installCore, w.os, q);
      MetRunIsPhases(s, l, installCore, w);
      PhasesFrame(Phases(installCore), AfterRequirements(s, l, w), l, w, q);
    }
  }

  /** No phase touches a path outside the install directory. */
  lemma OutsideUntouched(l: Layout, installCore: bool, os: OsFamily, q: Path)
    requires !(l.installDir <= q)
    ensures AllUntouched(Phases(installCore), l, os, q)
  {
    LayoutSeparated(l, os);
    PrefixChain(l.installDir, l.DemoDir(), q);
    PrefixChain(l.installDir, l.CoreDir(), q);
    PrefixChain(l.installDir, EnvFile(l), q);
  }

  /** Without `install_core` nothing below `core/` changes. */
  lemma CoreUntouchedUnlessRequested(s: State, l: Layout, w: World, q: Path)
    requires l.CoreDir() < q
    ensures Unchanged(s.fs, RunInstall(s, l, false, w).0.fs, q)
  {
    if RequirementsMet(w) {
      CoreUntouchedByDemoRun(l, w.os, q);
      MetRunIsPhases(s, l, false, w);
      PhasesFrame(Phases(false), AfterRequirements(s, l, w), l, w, q);
    }
  }

  /** A path strictly below `core/` is left alone by every phase of a run without the core. */
  lemma CoreUntouchedByDemoRun(l: Layout, os: OsFamily, q: Path)
    requires l.CoreDir() < q
    ensures AllUntouched(Phases(false), l, os, q)
  {
    var n := |l.installDir|;
    assert q[n] == "core";
    assert l.DemoDir()[n] != q[n];
    assert |q| > n + 1;
    assert |EnvFile(l)| == n + 2;
    assert q != l.installDir && q != l.DemoDir() && q != l.CoreDir();
    assert q != l.StartScript(os) && q != l.StopScript(os);
  }

  /** Every operation a run of `phases` starts belongs to one of the phases. */
  lemma {:induction false} PhasesCalls(phases: seq<Phase>, s: State, l: Layout, w: World, allowed: set<External>)
    requires forall i | 0 <= i < |phases| :: PhaseCalls(phases[i], l) <= allowed
    ensures CallsWithin(s, RunPhases(phases, s, l, w).0, allowed)
    decreases |phases|
  {
    if phases != [] {
      match RunPhase(phases[0], s, l, w)
      case Raised(t, f) =>
      case Normal(t) =>
        var t' := ProgressStep(t, CheckpointOf(phases[0]));
        assert forall i | 0 <= i < |phases| - 1 :: PhaseCalls(phases[1..][i], l) <= allowed by {
          forall i | 0 <= i < |phases| - 1 ensures PhaseCalls(phases[1..][i], l) <= allowed {
            assert phases[1..][i] == phases[i + 1];
          }
        }
        var u := RunPhases(phases[1..], t', l, w).0;
        PhasesCalls(phases[1..], t', l, w, allowed);
        PhasesExtend(phases[1..], t', l, w);
        assert PhaseCalls(phases[0], l) <= allowed;
        CallsWithinChain(s, t', u, PhaseCalls(phases[0], l), allowed, allowed);
    }
  }

  /** The operations a run may start: the probes, the demo acquisition, npm in `demo/`, and the core acquisition if asked for. */
  function RunCalls(l: Layout, installCore: bool): set<External>
  {
    Elements(ProbedTools) + AcquireCalls(DemoRepo, DemoZip, l.DemoDir()) + {NpmInstall(l.DemoDir()), NpmBuild(l.DemoDir())}
    + (if installCore then AcquireCalls(CoreRepo, CoreZip, l.CoreDir()) else {})
  }

  function Elements<T>(s: seq<T>): set<T>
  {
    set x | x in s
  }

  /** Each phase of a run starts only operations of `RunCalls`. */
  lemma PhasesWithinRunCalls(l: Layout, installCore: bool)
    ensures forall i | 0 <= i < |Phases(installCore)| :: PhaseCalls(Phases(installCore)[i], l) <= RunCalls(l, installCore)
  {
    var phases, allowed := Phases(installCore), RunCalls(l, installCore);
    forall i | 0 <= i < |phases| ensures PhaseCalls(phases[i], l) <= allowed {
      if i == 1 {
        assert PhaseCalls(phases[i], l) == AcquireCalls(DemoRepo, DemoZip, l.DemoDir());
      } else if i == 2 {
        assert installCore ==> PhaseCalls(phases[i], l) == AcquireCalls(CoreRepo, CoreZip, l.CoreDir());
      } else if i == 3 {
        assert PhaseCalls(phases[i], l) == {NpmInstall(l.DemoDir()), NpmBuild(l.DemoDir())};
      } else {
        assert PhaseCalls(phases[i], l) == {};
      }
    }
  }

  /** The requirements check starts only the four version probes. */
  lemma ProbesWithin(s: State, l: Layout, w: World, allowed: set<External>)
    requires Elements(ProbedTools) <= allowed
    ensures CallsWithin(s, RequirementsStep(ProgressStep(s, ProgressEvent(0, Starting)), l, w).0, allowed)
  {
    var s1 := RequirementsStep(ProgressStep(s, ProgressEvent(0, Starting)), l, w).0;
    forall i | |s.calls| <= i < |s1.calls| ensures s1.calls[i] in allowed {
      assert s1.calls[i] == ProbedTools[i - |s.calls|];
    }
  }

  /**
   * A run starts only the operations of `RunCalls`: in particular npm only
   * ever runs in `demo/`.
   */
  lemma RunStartsOnly(s: State, l: Layout, installCore: bool, w: World)
    ensures CallsWithin(s, RunInstall(s, l, installCore, w).0, RunCalls(l, installCore))
  {
    var allowed := RunCalls(l, installCore);
    var s1 := RequirementsStep(ProgressStep(s, ProgressEvent(0, Starting)), l, w).0;
    ProbesWithin(s, l, w, allowed);
    if RequirementsMet(w) {
      var t := AfterRequirements(s, l, w);
      assert t.calls == s1.calls;
      PhasesWithinRunCalls(l, installCore);
      PhasesCalls(Phases(installCore), t, l, w, allowed);
      PhasesExtend(Phases(installCore), t, l, w);
      CallsWithinChain(s, t, RunPhases(Phases(installCore), t, l, w).0, allowed, allowed, allowed);
    }
  }

  /** The core repository's own operations. */
  function CoreWork(l: Layout): set<External>
  {
    {GitPull(l.CoreDir()), GitClone(CoreRepo, l.CoreDir()), Fetch(CoreZip), Unpack(CoreZip)}
  }

  /** None of the core repository's operations is among those of a run without the core. */
  lemma CoreWorkNotInDemoRun(l: Layout)
    ensures forall c | c in CoreWork(l) :: c !in RunCalls(l, false)
  {
    var n := |l.installDir|;
    assert l.DemoDir() != l.CoreDir() by {
      assert l.DemoDir()[n] == "demo" && l.CoreDir()[n] == "core";
    }
    assert DemoRepo != CoreRepo by {
      assert DemoRepo[45] != CoreRepo[45];
    }
    assert DemoZip != CoreZip by {
      assert DemoZip[45] != CoreZip[45];
    }
    ProbesAreQueries();
    AcquisitionsApart(DemoRepo, DemoZip, l.DemoDir(), CoreRepo, CoreZip, l.CoreDir());
  }

  /** Acquisitions into different destinations from different archives share no operation but the git probe. */
  lemma AcquisitionsApart(repo: string, zip: string, dest: Path, repo': string, zip': string, dest': Path)
    requires zip != zip' && dest != dest'
    ensures var a := AcquireCalls(repo, zip, dest);
      GitPull(dest') !in a && GitClone(repo', dest') !in a && Fetch(zip') !in a && Unpack(zip') !in a
  {
  }

  /** The requirements check only ever asks tools for their version. */
  lemma ProbesAreQueries()
    ensures forall c | c in Elements(ProbedTools) :: c.VersionQuery?
  {
  }

  /** Without `install_core` no operation on the core repository is started. */
  lemma CoreNotFetchedUnlessRequested(s: State, l: Layout, w: World)
    ensures var r := RunInstall(s, l, false, w);
      forall i | |s.calls| <= i < |r.0.calls| :: r.0.calls[i] !in CoreWork(l)
  {
    RunStartsOnly(s, l, false, w);
    CoreWorkNotInDemoRun(l);
  }

  // ---------------------------------------------------------------- acquisition

  /** The second operation of an acquisition is the git command or, failing that, the download. */
  lemma AcquireStartsWork(s: State, l: Layout, repoUrl: string, zipUrl: string, dest: Path, name: string, aw: AcquireWorld)
    ensures var r := AcquireStep(s, l, repoUrl, zipUrl, dest, name, aw);
      && |r.state.calls| > |s.calls| + 1
      && r.state.calls[|s.calls|] == VersionQuery("git")
      && r.state.calls[|s.calls| + 1] ==
           if !Answers(aw.gitProbe) then Fetch(zipUrl)
           else if Exists(s.fs, dest) && Exists(s.fs, dest + [".git"]) then GitPull(dest)
           else GitClone(repoUrl, dest)
  {
    var s1 := s.(calls := s.calls + [VersionQuery("git")]);
    var r := AcquireStep(s, l, repoUrl, zipUrl, dest, name, aw);
    var first := if !Answers(aw.gitProbe) then Fetch(zipUrl)
                 else if Exists(s.fs, dest) && Exists(s.fs, dest + [".git"]) then GitPull(dest)
                 else GitClone(repoUrl, dest);
    assert s1.calls + [first] <= r.state.calls;
    assert (s1.calls + [first])[|s.calls|] == VersionQuery("git");
    assert (s1.calls + [first])[|s.calls| + 1] == first;
  }

  /** Without git the archive is fetched straight away and git is never run. */
  lemma AcquireWithoutGit(s: State, l: Layout, repoUrl: string, zipUrl: string, dest: Path, name: string, aw: AcquireWorld)
    requires !Answers(aw.gitProbe)
    ensures var r := AcquireStep(s, l, repoUrl, zipUrl, dest, name, aw);
      && r.state.calls[|s.calls| + 1] == Fetch(zipUrl)
      && forall i | |s.calls| <= i < |r.state.calls| :: !r.state.calls[i].GitPull? && !r.state.calls[i].GitClone?
  {
    AcquireStartsWork(s, l, repoUrl, zipUrl, dest, name, aw);
  }

  /** A git command that succeeds leaves a working copy, holding `.git`, at the destination, and no download is made. */
  lemma GitSuccessLeavesWorkingCopy(s: State, l: Layout, repoUrl: string, zipUrl: string, dest: Path, name: string, aw: AcquireWorld)
    requires Answers(aw.gitProbe) && aw.gitRun == Finished(0)
    ensures var r := AcquireStep(s, l, repoUrl, zipUrl, dest, name, aw);
      && r.Normal?
      && r.state.fs == Replace(s.fs, dest, WorkingCopy(aw.workingCopy))
      && IsDir(r.state.fs, dest) && IsDir(r.state.fs, dest + [".git"])
      && |r.state.calls| == |s.calls| + 2
  {
    var fs' := Replace(s.fs, dest, WorkingCopy(aw.workingCopy));
    assert dest[|dest|..] == [];
    assert (dest + [".git"])[|dest|..] == [".git"];
  }

  /** A git command that exits non-zero is logged as a WARNING and the archive is fetched instead. */
  lemma GitFailureFallsBack(s: State, l: Layout, repoUrl: string, zipUrl: string, dest: Path, name: string, aw: AcquireWorld, code: int)
    requires Answers(aw.gitProbe) && aw.gitRun == Finished(code) && code != 0
    ensures var r := AcquireStep(s, l, repoUrl, zipUrl, dest, name, aw);
      && |r.state.calls| > |s.calls| + 2
      && r.state.calls[|s.calls| + 2] == Fetch(zipUrl)
      && s.stream + [LogRecord(Info, "Cloning " + name + " repository..."), LogRecord(Warning, "Git clone failed")] <= r.state.stream
  {
    var s1 := s.(calls := s.calls + [VersionQuery("git")]);
    var s2 := LogStep(s1, l, Info, "Cloning " + name + " repository...");
    var pull := Exists(s.fs, dest) && Exists(s.fs, dest + [".git"]);
    var s3 := s2.(calls := s1.calls + [if pull then GitPull(dest) else GitClone(repoUrl, dest)]);
    var z := GitFallbackStep(s3, l, zipUrl, dest, name, aw);
    assert GitStep(s1, l, repoUrl, zipUrl, dest, name, aw) == z;
    assert AcquireStep(s, l, repoUrl, zipUrl, dest, name, aw) == z;
    assert |s3.calls| == |s.calls| + 2;
    assert (s3.calls + [Fetch(zipUrl)])[|s.calls| + 2] == Fetch(zipUrl);
    var cloning, failed := LogRecord(Info, "Cloning " + name + " repository..."), LogRecord(Warning, "Git clone failed");
    assert s3.stream == s.stream + [cloning];
    assert s.stream + [cloning, failed] == s3.stream + [failed];
  }

  /**
   * An archive whose extraction directory was created but holds nothing
   * leaves the destination as it was, and raises nothing.
   */
  lemma EmptyArchiveKeepsDestination(s: State, l: Layout, zipUrl: string, dest: Path, name: string, aw: AcquireWorld)
    requires aw.download.completed && aw.extraction == Extracted([])
    ensures var r := ZipFallbackStep(s, l, zipUrl, dest, name, aw);
      r.Normal? && r.state.fs == s.fs
  {
  }

  /**
   * An archive that unpacks to at least one entry replaces the destination
   * with the first entry, unless a non-directory stands in the way.
   */
  lemma ArchiveReplacesDestination(s: State, l: Layout, zipUrl: string, dest: Path, name: string, aw: AcquireWorld)
    requires aw.download.completed && aw.extraction.Extracted? && aw.extraction.entries != []
    ensures var r := ZipFallbackStep(s, l, zipUrl, dest, name, aw);
      && (r.Normal? <==> !Exists(s.fs, dest) || IsDir(s.fs, dest))
      && (r.Raised? ==> r.fault == NotADirectory(dest) && r.state.fs == s.fs)
      && (r.Normal? ==> r.state.fs == Replace(s.fs, dest, aw.extraction.entries[0]))
  {
  }

  /**
   * An archive without any member never creates the extraction directory, so
   * listing it raises after the extraction was reported, and the destination
   * is left as it was.
   */
  lemma MemberlessArchiveRaises(s: State, l: Layout, zipUrl: string, dest: Path, name: string, aw: AcquireWorld)
    requires aw.download.completed && aw.extraction == ExtractedNothing
    ensures var r := ZipFallbackStep(s, l, zipUrl, dest, name, aw);
      && r.Raised? && r.fault == ExtractionMissing(zipUrl)
      && r.state.fs == s.fs && r.state.calls == s.calls + [Fetch(zipUrl), Unpack(zipUrl)]
      && LastRecord(r.state.stream) == LogRecord(Info, "Extracted " + name + " repository")
  {
  }

  /**
   * An archive that cannot be read raises inside `extract_zip`, after the
   * fetch and the extracting record and before anything is moved.
   */
  lemma BadArchiveRaises(s: State, l: Layout, zipUrl: string, dest: Path, name: string, aw: AcquireWorld)
    requires aw.download.completed && aw.extraction == ExtractFailed
    ensures var r := ZipFallbackStep(s, l, zipUrl, dest, name, aw);
      && r.Raised? && r.fault == BadArchive(zipUrl)
      && r.state.fs == s.fs && r.state.calls == s.calls + [Fetch(zipUrl), Unpack(zipUrl)]
      && LastRecord(r.state.stream) == LogRecord(Info, "Extracting " + name + " repository" + "...")
  {
  }

  /** A download that fails raises before anything is unpacked or changed on disk. */
  lemma FailedDownloadRaises(s: State, l: Layout, zipUrl: string, dest: Path, name: string, aw: AcquireWorld)
    requires !aw.download.completed
    ensures var r := ZipFallbackStep(s, l, zipUrl, dest, name, aw);
      && r.Raised? && r.fault == DownloadFailed(zipUrl)
      && r.state.fs == s.fs && r.state.calls == s.calls + [Fetch(zipUrl)]
  {
  }

  /** The first report of a download of known size is 0%, whatever checkpoint came before it. */
  lemma DownloadRestartsAtZero(s: State, l: Layout, url: string, description: string, d: Download)
    requires d.reports != [] && d.reports[0].blockNum == 0 && d.reports[0].totalSize > 0
    requires s.progress != [] && s.progress[|s.progress| - 1].value > 0
    ensures !NonDecreasing(Values(DownloadStep(s, l, url, description, d).state.progress))
  {
    var r := DownloadStep(s, l, url, description, d);
    var ticks := HookEvents(d.reports, description);
    assert ticks[0].value == 0;
    var vs := Values(r.state.progress);
    var k := |s.progress|;
    assert r.state.progress[k] == ticks[0];
    assert vs[k - 1] > vs[k];
  }

  // ---------------------------------------------------------------- dependencies, environment, launchers

  /** `npm install` that exits non-zero is logged as an ERROR and raised. */
  lemma FailedInstallRaises(s: State, l: Layout, dir: Path, name: string, code: int, build: RunOutcome)
    requires IsDir(s.fs, dir) && code != 0
    ensures var r := DependenciesStep(s, l, dir, name, Finished(code), build);
      && r.Raised? && r.fault == CommandFailed("npm", code)
      && LastRecord(r.state.stream) == LogRecord(Error, "Failed to install " + name + " dependencies")
      && r.state.calls == s.calls + [NpmInstall(dir)]
  {
  }

  /** A build that exits non-zero is only a WARNING: the step returns normally. */
  lemma FailedBuildWarns(s: State, l: Layout, dir: Path, name: string, code: int)
    requires IsDir(s.fs, dir)
    ensures var r := DependenciesStep(s, l, dir, name, Finished(0), Finished(code));
      && r.Normal?
      && r.state.calls == s.calls + [NpmInstall(dir), NpmBuild(dir)]
      && LastRecord(r.state.stream).level == (if code == 0 then Info else Warning)
      && ErrorFree(r.state.stream[|s.stream|..])
  {
    var r := DependenciesStep(s, l, dir, name, Finished(0), Finished(code));
    var added := [LogRecord(Info, "Installing " + name + " dependencies..."), LogRecord(Info, name + " dependencies installed"),
                  if code == 0 then LogRecord(Info, name + " built successfully")
                  else LogRecord(Warning, name + " build failed (not critical)")];
    assert r.state.stream == s.stream + added;
    assert r.state.stream[|s.stream|..] == added;
  }

  /** A failing `npm install` fails the whole run, wherever it stops. */
  lemma {:induction false} FailedInstallFailsPhases(phases: seq<Phase>, s: State, l: Layout, w: World)
    requires Phase.InstallDependencies in phases && w.npmInstall != Finished(0)
    ensures !RunPhases(phases, s, l, w).1
    decreases |phases|
  {
    match RunPhase(phases[0], s, l, w)
    case Raised(t, f) =>
    case Normal(t) =>
      if phases[0] == Phase.InstallDependencies {
        assert false;
      } else {
        assert Phase.InstallDependencies in phases[1..];
        FailedInstallFailsPhases(phases[1..], ProgressStep(t, CheckpointOf(phases[0])), l, w);
      }
  }

  lemma FailedInstallFailsRun(s: State, l: Layout, installCore: bool, w: World)
    requires w.npmInstall != Finished(0)
    ensures !RunInstall(s, l, installCore, w).1
  {
    if RequirementsMet(w) {
      assert Phase.InstallDependencies in Phases(installCore);
      FailedInstallFailsPhases(Phases(installCore), AfterRequirements(s, l, w), l, w);
    }
  }

  /** An existing `.env` is never touched, nor is anything when there is no `.env.example`. */
  lemma EnvironmentKeepsExisting(s: State, l: Layout)
    requires Exists(s.fs, EnvFile(l)) || !Exists(s.fs, EnvExample(l))
    ensures var r := EnvironmentStep(s, l);
      r.Normal? && r.state.fs == s.fs
  {
  }

  /**
   * Without a `.env`, the step creates one exactly when `.env.example` exists,
   * as a copy of it; an example that is not a regular file raises.
   */
  lemma EnvironmentCreatesFromExample(s: State, l: Layout)
    requires !Exists(s.fs, EnvFile(l)) && IsDir(s.fs, l.DemoDir())
    ensures var r := EnvironmentStep(s, l);
      && (Exists(r.state.fs, EnvFile(l)) <==> Exists(s.fs, EnvExample(l)) && r.Normal?)
      && (r.Normal? && Exists(s.fs, EnvExample(l)) ==> r.state.fs[EnvFile(l)] == s.fs[EnvExample(l)])
      && (r.Raised? <==> Exists(s.fs, EnvExample(l)) && !s.fs[EnvExample(l)].File?)
  {
    assert Parent(EnvFile(l)) == l.DemoDir();
    assert EnvExample(l) != [];
  }

  /** On success both launchers hold their scripts for the host's OS, executable on POSIX. */
  lemma LaunchersWritten(s: State, l: Layout, os: OsFamily, encodable: bool)
    ensures var r := LaunchersStep(s, l, os, encodable);
      r.Normal? ==>
        && l.StartScript(os) in r.state.fs && r.state.fs[l.StartScript(os)].File?
        && r.state.fs[l.StartScript(os)].content == StartScript(os, l.DemoDir())
        && l.StopScript(os) in r.state.fs && r.state.fs[l.StopScript(os)].File?
        && r.state.fs[l.StopScript(os)].content == StopScript(os, l.DemoDir())
        && (os == Posix ==> r.state.fs[l.StartScript(os)].executable && r.state.fs[l.StopScript(os)].executable)
  {
    var start, stop := l.StartScript(os), l.StopScript(os);
    var s1 := LogStep(s, l, Info, "Creating launcher scripts...");
    var r2 := ScriptStep(s1, start, StartScript(os, l.DemoDir()), os, encodable);
    var r3 := ScriptStep(r2.state, stop, StopScript(os, l.DemoDir()), os, encodable);
    assert start != stop by { LayoutSeparated(l, os); }
    assert Unchanged(r2.state.fs, r3.state.fs, start);
  }

  /**
   * With the install directory present, the launchers succeed exactly when
   * the default encoding takes the emoji and neither script path is a directory.
   */
  lemma LaunchersNeedFiles(s: State, l: Layout, os: OsFamily, encodable: bool)
    requires IsDir(s.fs, l.installDir)
    ensures LaunchersStep(s, l, os, encodable).Normal? <==>
      encodable && !IsDir(s.fs, l.StartScript(os)) && !IsDir(s.fs, l.StopScript(os))
  {
    var start, stop := l.StartScript(os), l.StopScript(os);
    var s1 := LogStep(s, l, Info, "Creating launcher scripts...");
    var r2 := ScriptStep(s1, start, StartScript(os, l.DemoDir()), os, encodable);
    var r3 := ScriptStep(r2.state, stop, StopScript(os, l.DemoDir()), os, encodable);
    assert start != stop && Parent(start) == l.installDir && Parent(stop) == l.installDir by {
      LayoutSeparated(l, os);
    }
    assert |start| == |stop| == |l.installDir| + 1;
    IsDirKept(s1.fs, r2.state.fs, stop);
    IsDirKept(s1.fs, r2.state.fs, l.installDir);
    assert r2.Normal? <==> encodable && !IsDir(s.fs, start);
    assert r2.Normal? ==> (r3.Normal? <==> !IsDir(s.fs, stop));
    assert LaunchersStep(s, l, os, encodable).Normal? <==> r2.Normal? && r3.Normal?;
  }

  /**
   * When the default encoding cannot take the emoji, the start script is
   * left holding its first line only, the exception propagates, and the stop
   * script is never written.
   */
  lemma LaunchersUnencodable(s: State, l: Layout, os: OsFamily)
    requires IsDir(s.fs, l.installDir) && !IsDir(s.fs, l.StartScript(os))
    ensures var r := LaunchersStep(s, l, os, false);
      && r.Raised? && r.fault == Unencodable(l.StartScript(os))
      && l.StartScript(os) in r.state.fs && r.state.fs[l.StartScript(os)].File?
      && r.state.fs[l.StartScript(os)].content == Text(ScriptHead(os))
      && Unchanged(s.fs, r.state.fs, l.StopScript(os))
  {
    var start := l.StartScript(os);
    var s1 := LogStep(s, l, Info, "Creating launcher scripts...");
    assert start != [] && Parent(start) == l.installDir && start != l.StopScript(os) by {
      LayoutSeparated(l, os);
    }
    var r2 := ScriptStep(s1, start, StartScript(os, l.DemoDir()), os, false);
    assert Unchanged(s1.fs, r2.state.fs, l.StopScript(os));
  }

  /** A path that holds the same thing in two filesystems is a directory in both or in neither. */
  lemma IsDirKept(fs: Fs, fs': Fs, p: Path)
    requires Unchanged(fs, fs', p)
    ensures IsDir(fs', p) == IsDir(fs, p)
  {
  }

  // ---------------------------------------------------------------- a run that succeeds

  /** Git answers its probe and the clone or pull exits with 0. */
  ghost predicate GitDelivers(aw: AcquireWorld)
  {
    Answers(aw.gitProbe) && aw.gitRun == Finished(0)
  }

  /** A checkout `setup_environment` copes with: it holds `.env`, or its `.env.example`, if any, is a regular file. */
  ghost predicate EnvUsable(c: Tree)
  {
    [".env"] in c || ([".env.example"] in c ==> c[[".env.example"]].File?)
  }

  /**
   * An outside world in which everything up to the launchers cooperates: the
   * requirements hold, git delivers the demo, and the core too when it is
   * asked for, and `npm install` succeeds; the build may fail. Whether the
   * default encoding takes the launchers' emoji is left open.
   */
  ghost predicate Cooperates(w: World, installCore: bool)
  {
    && RequirementsMet(w)
    && GitDelivers(w.demo) && EnvUsable(w.demo.workingCopy)
    && (installCore ==> GitDelivers(w.core))
    && w.npmInstall == Finished(0) && w.npmBuild.Finished?
  }

  /** Nothing exists yet at or below the install root, and its parent is a directory. */
  ghost predicate FreshRoot(fs: Fs, l: Layout)
  {
    l.installDir != [] && IsDir(fs, Parent(l.installDir)) && forall q | l.installDir <= q :: q !in fs
  }

  /** The layout's directories stand, and neither launcher path is a directory. */
  ghost predicate Laid(fs: Fs, l: Layout, os: OsFamily)
  {
    && IsDir(fs, l.installDir) && IsDir(fs, l.DemoDir()) && IsDir(fs, l.CoreDir())
    && !IsDir(fs, l.StartScript(os)) && !IsDir(fs, l.StopScript(os))
  }

  /** `demo/` holds `.env`, or its `.env.example`, if any, is a regular file. */
  ghost predicate EnvReady(fs: Fs, l: Layout)
  {
    EnvFile(l) in fs || (EnvExample(l) in fs ==> fs[EnvExample(l)].File?)
  }

  /** The ERROR record of a run whose start script could not be written for the emoji. */
  function UnencodableRecord(l: Layout, os: OsFamily): LogRecord
  {
    LogRecord(Error, "Installation failed: " + FaultText(Unencodable(l.StartScript(os))))
  }

  /**
   * How a run on a laid-out root ends: it returns True exactly when the
   * default encoding takes the launchers' emoji, with the installation in
   * place; otherwise its last record is the ERROR naming the failed write of
   * the start script.
   */
  ghost predicate Concludes(r: (State, bool), l: Layout, w: World)
  {
    && (r.1 <==> w.emojiEncodable)
    && (r.1 ==> Installed(r.0.fs, l, w.os))
    && (!r.1 ==> r.0.stream != [] && LastRecord(r.0.stream) == UnencodableRecord(l, w.os))
  }

  /** The installation is in place: the three directories and both launchers, executable on POSIX. */
  ghost predicate Installed(fs: Fs, l: Layout, os: OsFamily)
  {
    && IsDir(fs, l.installDir) && IsDir(fs, l.DemoDir()) && IsDir(fs, l.CoreDir())
    && l.StartScript(os) in fs && fs[l.StartScript(os)].File?
    && fs[l.StartScript(os)].content == StartScript(os, l.DemoDir())
    && l.StopScript(os) in fs && fs[l.StopScript(os)].File?
    && fs[l.StopScript(os)].content == StopScript(os, l.DemoDir())
    && (os == Posix ==> fs[l.StartScript(os)].executable && fs[l.StopScript(os)].executable)
  }

  /** Paths of the layout that lie apart: none of them is inside another. */
  lemma LayoutApart(l: Layout, os: OsFamily)
    ensures !(l.DemoDir() <= l.installDir) && !(l.CoreDir() <= l.installDir)
    ensures l.installDir != l.StartScript(os) && l.installDir != l.StopScript(os)
    ensures l.DemoDir() != l.StartScript(os) && l.DemoDir() != l.StopScript(os)
    ensures l.CoreDir() != l.StartScript(os) && l.CoreDir() != l.StopScript(os)
    ensures !(l.DemoDir() <= l.StartScript(os)) && !(l.DemoDir() <= l.StopScript(os))
    ensures !(l.CoreDir() <= l.StartScript(os)) && !(l.CoreDir() <= l.StopScript(os))
    ensures !(l.CoreDir() <= l.DemoDir()) && !(l.DemoDir() <= l.CoreDir())
    ensures !(l.CoreDir() <= EnvFile(l)) && !(l.CoreDir() <= EnvExample(l))
    ensures l.DemoDir() <= EnvFile(l) && EnvFile(l)[|l.DemoDir()|..] == [".env"]
    ensures l.DemoDir() <= EnvExample(l) && EnvExample(l)[|l.DemoDir()|..] == [".env.example"]
  {
    LayoutSeparated(l, os);
    var n := |l.installDir|;
    assert EnvFile(l)[n] == "demo" && EnvExample(l)[n] == "demo" && l.CoreDir()[n] == "core";
  }

  /** A first phase that completes hands the rest of the list its state, with the phase's checkpoint reported. */
  lemma NextPhase(phases: seq<Phase>, t: State, l: Layout, w: World)
    requires phases != [] && RunPhase(phases[0], t, l, w).Normal?
    ensures RunPhases(phases, t, l, w)
      == RunPhases(phases[1..], ProgressStep(RunPhase(phases[0], t, l, w).state, CheckpointOf(phases[0])), l, w)
  {
  }

  /** On a laid-out install root, launchers whose emoji can be encoded complete the installation. */
  lemma LaunchersInstall(t: State, l: Layout, os: OsFamily)
    requires Laid(t.fs, l, os)
    ensures var a := LaunchersStep(t, l, os, true);
      a.Normal? && Installed(a.state.fs, l, os)
  {
    LaunchersNeedFiles(t, l, os, true);
    LaunchersWritten(t, l, os, true);
    var a := LaunchersStep(t, l, os, true);
    assert Unchanged(t.fs, a.state.fs, l.installDir) && Unchanged(t.fs, a.state.fs, l.DemoDir())
      && Unchanged(t.fs, a.state.fs, l.CoreDir()) by {
      LayoutApart(l, os);
    }
  }

  /** The last phase on a laid-out install root writes both launchers and completes the run, or fails on the emoji. */
  lemma SucceedFromLaunchers(t: State, l: Layout, w: World)
    requires Laid(t.fs, l, w.os)
    ensures var r := RunPhases([CreateLaunchers], t, l, w);
      Concludes(r, l, w)
  {
    var a := RunPhase(CreateLaunchers, t, l, w);
    assert a == LaunchersStep(t, l, w.os, w.emojiEncodable);
    if w.emojiEncodable {
      LaunchersInstall(t, l, w.os);
      NextPhase([CreateLaunchers], t, l, w);
      assert [CreateLaunchers][1..] == [];
    } else {
      LaunchersUnencodable(t, l, w.os);
    }
  }

  /** On a laid-out install root whose `.env` can be prepared, the last two phases complete the run. */
  lemma SucceedFromEnvironment(t: State, l: Layout, w: World)
    requires Laid(t.fs, l, w.os) && EnvReady(t.fs, l)
    ensures var r := RunPhases([ConfigureEnvironment, CreateLaunchers], t, l, w);
      Concludes(r, l, w)
  {
    var os := w.os;
    if EnvFile(l) in t.fs || EnvExample(l) !in t.fs {
      EnvironmentKeepsExisting(t, l);
    } else {
      EnvironmentCreatesFromExample(t, l);
    }
    var e := EnvironmentStep(t, l);
    assert Laid(e.state.fs, l, os) by {
      var n := |l.installDir|;
      assert |EnvFile(l)| == n + 2 && |l.DemoDir()| == n + 1 && |l.CoreDir()| == n + 1;
      assert |l.StartScript(os)| == n + 1 && |l.StopScript(os)| == n + 1;
      IsDirKept(t.fs, e.state.fs, l.installDir);
      IsDirKept(t.fs, e.state.fs, l.DemoDir());
      IsDirKept(t.fs, e.state.fs, l.CoreDir());
      IsDirKept(t.fs, e.state.fs, l.StartScript(os));
      IsDirKept(t.fs, e.state.fs, l.StopScript(os));
    }
    NextPhase([ConfigureEnvironment, CreateLaunchers], t, l, w);
    SucceedFromLaunchers(ProgressStep(e.state, CheckpointOf(ConfigureEnvironment)), l, w);
    assert [ConfigureEnvironment, CreateLaunchers][1..] == [CreateLaunchers];
  }

  /** With `npm install` succeeding, the last three phases complete the run. */
  lemma SucceedFromDependencies(t: State, l: Layout, w: World)
    requires Laid(t.fs, l, w.os) && EnvReady(t.fs, l)
    requires w.npmInstall == Finished(0) && w.npmBuild.Finished?
    ensures var r := RunPhases([Phase.InstallDependencies, ConfigureEnvironment, Phase.CreateLaunchers], t, l, w);
      Concludes(r, l, w)
  {
    FailedBuildWarns(t, l, l.DemoDir(), "Demo", w.npmBuild.code);
    var d := DependenciesStep(t, l, l.DemoDir(), "Demo", w.npmInstall, w.npmBuild);
    NextPhase([Phase.InstallDependencies, ConfigureEnvironment, Phase.CreateLaunchers], t, l, w);
    SucceedFromEnvironment(ProgressStep(d.state, CheckpointOf(Phase.InstallDependencies)), l, w);
    assert [Phase.InstallDependencies, ConfigureEnvironment, Phase.CreateLaunchers][1..] == [ConfigureEnvironment, Phase.CreateLaunchers];
  }

  /** A core checkout that git delivers keeps the layout and whatever `demo/` holds. */
  lemma CoreCheckoutLaid(t: State, l: Layout, w: World)
    requires Laid(t.fs, l, w.os) && EnvReady(t.fs, l) && GitDelivers(w.core)
    ensures var a := AcquireStep(t, l, CoreRepo, CoreZip, l.CoreDir(), "Core", w.core);
      a.Normal? && Laid(a.state.fs, l, w.os) && EnvReady(a.state.fs, l)
  {
    var os := w.os;
    GitSuccessLeavesWorkingCopy(t, l, CoreRepo, CoreZip, l.CoreDir(), "Core", w.core);
    var a := AcquireStep(t, l, CoreRepo, CoreZip, l.CoreDir(), "Core", w.core);
    LayoutApart(l, os);
    assert SameOutside(t.fs, a.state.fs, l.CoreDir());
    IsDirKept(t.fs, a.state.fs, l.installDir);
    IsDirKept(t.fs, a.state.fs, l.DemoDir());
    IsDirKept(t.fs, a.state.fs, l.StartScript(os));
    IsDirKept(t.fs, a.state.fs, l.StopScript(os));
    assert Unchanged(t.fs, a.state.fs, EnvFile(l)) && Unchanged(t.fs, a.state.fs, EnvExample(l));
  }

  /** Acquiring the core when asked for, or skipping it, keeps the run on course to success. */
  lemma SucceedFromCore(t: State, l: Layout, installCore: bool, w: World)
    requires Laid(t.fs, l, w.os) && EnvReady(t.fs, l)
    requires w.npmInstall == Finished(0) && w.npmBuild.Finished?
    requires installCore ==> GitDelivers(w.core)
    ensures var r := RunPhases(Phases(installCore)[2..], t, l, w);
      Concludes(r, l, w)
  {
    var ph := if installCore then AcquireCore else SkipCore;
    var rest := [Phase.InstallDependencies, ConfigureEnvironment, Phase.CreateLaunchers];
    assert Phases(installCore)[2..] == [ph] + rest;
    if installCore {
      CoreCheckoutLaid(t, l, w);
    }
    var a := RunPhase(ph, t, l, w);
    assert a.Normal? && Laid(a.state.fs, l, w.os) && EnvReady(a.state.fs, l);
    NextPhase([ph] + rest, t, l, w);
    assert ([ph] + rest)[1..] == rest;
    SucceedFromDependencies(ProgressStep(a.state, CheckpointOf(ph)), l, w);
  }

  /** A checkout that git delivers into `demo/` keeps the layout and lets the `.env` be prepared. */
  lemma DemoCheckoutLaid(t: State, l: Layout, w: World)
    requires Laid(t.fs, l, w.os) && GitDelivers(w.demo) && EnvUsable(w.demo.workingCopy)
    ensures var a := AcquireStep(t, l, DemoRepo, DemoZip, l.DemoDir(), "Demo", w.demo);
      a.Normal? && Laid(a.state.fs, l, w.os) && EnvReady(a.state.fs, l)
  {
    var os := w.os;
    var demo := l.DemoDir();
    var c := w.demo.workingCopy;
    GitSuccessLeavesWorkingCopy(t, l, DemoRepo, DemoZip, demo, "Demo", w.demo);
    var a := AcquireStep(t, l, DemoRepo, DemoZip, demo, "Demo", w.demo);
    var fs' := a.state.fs;
    assert fs' == Replace(t.fs, demo, WorkingCopy(c));
    LayoutApart(l, os);
    IsDirKept(t.fs, fs', l.installDir);
    IsDirKept(t.fs, fs', l.CoreDir());
    IsDirKept(t.fs, fs', l.StartScript(os));
    IsDirKept(t.fs, fs', l.StopScript(os));
    assert EnvFile(l) in fs' <==> [".env"] in c;
    assert EnvExample(l) in fs' <==> [".env.example"] in c;
    assert EnvExample(l) in fs' ==> fs'[EnvExample(l)] == c[[".env.example"]];
  }

  /** The phase list after the directories starts with the demo acquisition. */
  lemma PhasesTail(installCore: bool)
    ensures Phases(installCore)[0] == MakeDirectories
    ensures Phases(installCore)[1..] != [] && Phases(installCore)[1..][0] == AcquireDemo
    ensures Phases(installCore)[1..][1..] == Phases(installCore)[2..]
  {
  }

  /** Once the directories stand, a cooperating world carries the remaining phases to success. */
  lemma SucceedFromDemo(t: State, l: Layout, installCore: bool, w: World)
    requires Laid(t.fs, l, w.os) && Cooperates(w, installCore)
    ensures var r := RunPhases(Phases(installCore)[1..], t, l, w);
      Concludes(r, l, w)
  {
    var rest := Phases(installCore)[1..];
    PhasesTail(installCore);
    DemoCheckoutLaid(t, l, w);
    var a := RunPhase(AcquireDemo, t, l, w);
    NextPhase(rest, t, l, w);
    SucceedFromCore(ProgressStep(a.state, CheckpointOf(AcquireDemo)), l, installCore, w);
  }

  /** On a fresh install root the directories are created and laid out. */
  lemma DirectoriesOnFreshRoot(t: State, l: Layout, os: OsFamily)
    requires FreshRoot(t.fs, l)
    ensures var d := DirectoriesStep(t, l);
      d.Normal? && Laid(d.state.fs, l, os)
  {
    var d := DirectoriesStep(t, l);
    var start, stop := l.StartScript(os), l.StopScript(os);
    assert l.installDir <= l.DemoDir() && l.installDir <= l.CoreDir();
    assert l.installDir <= start && l.installDir <= stop;
    assert Unchanged(t.fs, d.state.fs, start) && Unchanged(t.fs, d.state.fs, stop) by {
      LayoutApart(l, os);
    }
  }

  /** On a fresh install root a cooperating world carries every phase to success. */
  lemma SucceedFromStart(t: State, l: Layout, installCore: bool, w: World)
    requires FreshRoot(t.fs, l) && Cooperates(w, installCore)
    ensures var r := RunPhases(Phases(installCore), t, l, w);
      Concludes(r, l, w)
  {
    DirectoriesOnFreshRoot(t, l, w.os);
    var d := DirectoriesStep(t, l);
    NextPhase(Phases(installCore), t, l, w);
    SucceedFromDemo(ProgressStep(d.state, CheckpointOf(MakeDirectories)), l, installCore, w);
  }

  /**
   * The success path is reachable: on a fresh install root, in a world where
   * everything up to the launchers cooperates, `install` returns True exactly
   * when the default encoding takes the launchers' emoji, with or without the
   * core. It then reports every checkpoint from 0 to 100, ends with the
   * completion record, and leaves the directories and both launchers in
   * place; otherwise it ends with the ERROR naming the start script's write.
   */
  lemma RunSucceeds(s: State, l: Layout, installCore: bool, w: World)
    requires FreshRoot(s.fs, l) && Cooperates(w, installCore)
    ensures var r := RunInstall(s, l, installCore, w);
      && (r.1 <==> w.emojiEncodable)
      && (r.1 ==> Installed(r.0.fs, l, w.os))
      && Checkpoints(s.progress) <= Checkpoints(r.0.progress)
      && (r.1 ==> Checkpoints(r.0.progress)[|Checkpoints(s.progress)|..] == Milestones)
      && r.0.stream != []
      && (r.1 ==> LastRecord(r.0.stream) == LogRecord(Info, "Installation completed successfully!"))
      && (!r.1 ==> LastRecord(r.0.stream) == UnencodableRecord(l, w.os))
  {
    var r := RunInstall(s, l, installCore, w);
    assert Concludes(r, l, w) by {
      MetRunIsPhases(s, l, installCore, w);
      SucceedFromStart(AfterRequirements(s, l, w), l, installCore, w);
    }
    RunReportsMilestones(s, l, installCore, w);
    RunEndsWithVerdict(s, l, installCore, w);
  }

  /** Phases that include the core acquisition and succeed start some operation on the core repository. */
  lemma {:induction false} PhasesStartCoreWork(phases: seq<Phase>, t: State, l: Layout, w: World)
    requires AcquireCore in phases
    ensures var r := RunPhases(phases, t, l, w);
      r.1 ==> exists i | |t.calls| <= i < |r.0.calls| :: r.0.calls[i] in CoreWork(l)
    decreases |phases|
  {
    match RunPhase(phases[0], t, l, w)
    case Raised(_, _) =>
    case Normal(t1) =>
      var t2 := ProgressStep(t1, CheckpointOf(phases[0]));
      var r := RunPhases(phases[1..], t2, l, w);
      if phases[0] == AcquireCore {
        AcquireStartsWork(t, l, CoreRepo, CoreZip, l.CoreDir(), "Core", w.core);
        PhasesExtend(phases[1..], t2, l, w);
        var i := |t.calls| + 1;
        assert r.0.calls[i] == t1.calls[i];
        assert r.0.calls[i] in CoreWork(l);
      } else {
        assert AcquireCore in phases[1..];
        PhasesStartCoreWork(phases[1..], t2, l, w);
      }
  }

  /** With `install_core`, a run that returns True has started an operation on the core repository. */
  lemma CoreFetchedWhenRequested(s: State, l: Layout, w: World)
    ensures var r := RunInstall(s, l, true, w);
      r.1 ==> exists i | |s.calls| <= i < |r.0.calls| :: r.0.calls[i] in CoreWork(l)
  {
    if RequirementsMet(w) {
      MetRunIsPhases(s, l, true, w);
      PhasesStartCoreWork(Phases(true), AfterRequirements(s, l, w), l, w);
    }
  }

  /** What the first phase leaves in the progress stream stays at its head. */
  lemma FirstPhaseProgressKept(phases: seq<Phase>, t: State, l: Layout, w: World)
    requires phases != []
    ensures RunPhase(phases[0], t, l, w).state.progress <= RunPhases(phases, t, l, w).0.progress
  {
    match RunPhase(phases[0], t, l, w)
    case Raised(_, _) =>
    case Normal(t1) =>
      PhasesExtend(phases[1..], ProgressStep(t1, CheckpointOf(phases[0])), l, w);
  }

  /** Phases that start by fetching the demo as an archive put the download's ticks right after what came before. */
  lemma DemoArchiveTicksLead(phases: seq<Phase>, t: State, l: Layout, w: World)
    requires phases != [] && phases[0] == AcquireDemo && !Answers(w.demo.gitProbe)
    ensures t.progress + HookEvents(w.demo.download.reports, "Demo" + " repository") <= RunPhases(phases, t, l, w).0.progress
  {
    var a := AcquireStep(t, l, DemoRepo, DemoZip, l.DemoDir(), "Demo", w.demo);
    var s1 := t.(calls := t.calls + [VersionQuery("git")]);
    assert a == ZipFallbackStep(s1, l, DemoZip, l.DemoDir(), "Demo", w.demo);
    FirstPhaseProgressKept(phases, t, l, w);
  }

  /** A report of block 0 of a known size opens the download's ticks with 0%. */
  lemma FirstTickIsZero(reports: seq<HookCall>, description: string)
    requires reports != [] && reports[0].blockNum == 0 && reports[0].totalSize > 0
    ensures var ticks := HookEvents(reports, description);
      ticks != [] && ticks[0].value == 0
  {
  }

  /** A stream in which some value is followed by a smaller one is not non-decreasing. */
  lemma FallBreaksOrder(events: seq<ProgressEvent>, k: nat)
    requires 0 < k < |events| && events[k].value < events[k - 1].value
    ensures !NonDecreasing(Values(events))
  {
    var vs := Values(events);
    assert vs[k] < vs[k - 1];
  }

  /**
   * A whole run's progress stream can fall: when the demo is fetched as an
   * archive, its first tick is 0%, right after checkpoint 20.
   */
  lemma RunProgressFalls(s: State, l: Layout, installCore: bool, w: World)
    requires RequirementsMet(w) && FreshRoot(s.fs, l) && !Answers(w.demo.gitProbe)
    requires w.demo.download.reports != []
    requires w.demo.download.reports[0].blockNum == 0 && w.demo.download.reports[0].totalSize > 0
    ensures !NonDecreasing(Values(RunInstall(s, l, installCore, w).0.progress))
  {
    var t0 := AfterRequirements(s, l, w);
    MetRunIsPhases(s, l, installCore, w);
    DirectoriesOnFreshRoot(t0, l, w.os);
    var t1 := ProgressStep(DirectoriesStep(t0, l).state, CheckpointOf(MakeDirectories));
    var rest := Phases(installCore)[1..];
    NextPhase(Phases(installCore), t0, l, w);
    var r := RunInstall(s, l, installCore, w);
    assert r == RunPhases(rest, t1, l, w);
    var ticks := HookEvents(w.demo.download.reports, "Demo" + " repository");
    FirstTickIsZero(w.demo.download.reports, "Demo" + " repository");
    DemoArchiveTicksLead(rest, t1, l, w);
    var k := |t1.progress|;
    assert t1.progress + ticks <= r.0.progress;
    assert r.0.progress[k - 1] == t1.progress[k - 1] && t1.progress[k - 1].value == 20;
    assert r.0.progress[k] == ticks[0];
    FallBreaksOrder(r.0.progress, k);
  }
}
