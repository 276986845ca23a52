# AnarQ&Q demo installer — a verified model of its orchestration core

The AnarQ&Q demo installer (`install-anarqq-demo.py`) prepares a machine for
the AnarQ&Q ecosystem demo. Its class `AnarQQInstaller` does the work in a
fixed order:

1. it probes the host for Node.js, npm, git, Docker and free disk space;
2. it creates `~/anarqq-ecosystem/{demo,core}`;
3. it fetches the demo repository, and the core repository when asked, with
   git or else as a ZIP archive;
4. it runs `npm install` and `npm run build` in `demo/`;
5. it copies `.env.example` to `.env`;
6. it writes a start and a stop launcher script.

It reports progress checkpoints 0, 10, 20, 40, 60, 80, 90 and 100 along the
way, and logs every step.

The project models that class and proves what a run guarantees.

- `paths.dfy` (`Paths`): the layout derived from the install root.
- `events.dfy` (`Events`): what a run makes observable. These are log
  records, progress events, the external operations it starts and the
  exceptions it raises.
- `files.dfy` (`Files`): an abstract filesystem, a map from paths to
  directories and files. It carries the operations the installer performs:
  `mkdir(exist_ok=True)`, writing a file, `chmod 0o755`, `copy2`, and
  `rmtree` followed by `move`.
- `probing.dfy` (`Probing`): `check_command` as a function of the probe's
  outcome, `str.strip`, and the 5 GB disk threshold.
- `progress.dfy` (`DownloadProgress`): the download progress hook and its
  percentage formula.
- `steps.dfy` (`Steps`): one function per method of the class, on an
  abstract `State`. The state holds the filesystem, the log stream, the
  lines that reached `install.log`, the progress reports and the external
  operations started. Each step returns `Normal(state)` or
  `Raised(state, fault)`. `RunInstall` composes the steps as `install` does.
- `installer.dfy` (`Orchestrator`): the class `AnarQQInstaller` itself. Its
  fields are updated in place. Every method is proved to change them exactly
  as the matching `Steps` function says.
- `properties.dfy` (`InstallProperties`): lemmas about `RunInstall` and the
  steps, proved for every possible outside world.

Everything the outside world decides is an input to the model, carried in a
`World` value:

- the exit codes of `node`, `npm`, `git`, `docker` and `npm`'s install and build;
- the free disk space;
- the hook reports of a download and whether it completed;
- what an archive unpacks to;
- what git leaves behind;
- the OS family;
- whether the default text encoding of `open(path, 'w')` can encode the
  emoji the launcher scripts echo.

Where the Python method is one long body, the model splits it into smaller
members that the Python does not have:

- `ReportTool` and `ReportDisk` are parts of `check_system_requirements`.
- `CloneWithGit` and `DownloadZip`, with `GitStep`, `GitDoneStep`,
  `GitFallbackStep`, `ZipFallbackStep` and `MoveStep`, are the branches of
  `clone_or_download_repo`.
- `MkdirStep` is one `mkdir` statement of `setup_directories`; `ScriptStep`
  is one launcher's `with open(...)` block of `create_launchers` together
  with the `chmod` that follows it on POSIX.
- `Perform`, `Proceed` and `PerformPhases` are the statements of the `try`
  block of `install`.

Some behaviour of the code, made precise by the model:

- `core/` is created by `setup_directories` on every run, including runs
  that do not install the core. Only what lies *below* `core/` is left alone
  without `install_core` (`CoreUntouchedUnlessRequested`).
- The progress stream as a whole is not monotone. When `urlretrieve`
  reports a known total size, download ticks restart at 0% after
  checkpoint 20, when the demo is fetched as an archive, or after checkpoint
  40, when the core is (`DownloadRestartsAtZero`, `RunProgressFalls`).
  Without a known total the hook forwards nothing (`HookEventsSilent`).
  Only the checkpoints, with the ticks left out, form the prefix of 0, 10,
  …, 100.
- `setup_environment` never overwrites an existing `.env`
  (`EnvironmentKeepsExisting`). The ZIP fallback of the acquisition,
  however, removes the whole destination before moving the unpacked tree
  in, so an existing `demo/.env` is lost when the demo is re-fetched as an
  archive. `MoveStep` and `ArchiveReplacesDestination` state exactly that
  the destination's subtree becomes the archive's first entry.
- `extractall` creates the extraction directory only when the archive has a
  member. For an archive without members, `iterdir` therefore raises
  `FileNotFoundError` after the extraction was reported, and the acquisition
  fails (`MemberlessArchiveRaises`). Only an extraction directory that
  exists but is empty leaves the destination alone without an error.
- A run can succeed: on a fresh install root, in a world where git, npm and
  the requirements cooperate, `install` returns True and leaves the
  directories and both launchers in place (`RunSucceeds`), provided the
  launchers can be written.
- The launcher scripts are opened without an encoding, unlike `install.log`,
  which is opened as UTF-8. Their second line echoes an emoji. When the
  platform's default encoding cannot encode it, the write raises after the
  first line. The code page of a default Windows Python is such an
  encoding. The start script then holds only its first line, the stop
  script is never written, and `install` returns False after checkpoint 90
  (`LaunchersUnencodable`, `RunSucceeds`).
- The warning "Git clone failed" is also logged when a `git pull` fails.

## Model

| member | source | states |
|---|---|---|
| Paths.DefaultLayout | install-anarqq-demo.py:42-46 | the install root is the entry `anarqq-ecosystem` directly under the home directory |
| Paths.LayoutSeparated | install-anarqq-demo.py:43-46 | `demo/`, `core/`, `install.log` and both launchers are children of the install root; no two coincide, and neither directory contains another or a launcher |
| Files.Mkdir | install-anarqq-demo.py:135-137 | `mkdir(exist_ok=True)` succeeds exactly when the path is already a directory, or is absent under a directory; afterwards it is a directory and no other path changed |
| Files.WriteFile | install-anarqq-demo.py:247 | opening for writing succeeds exactly when the path is not a directory and its parent is one; the file then holds the content, keeps its mode, and nothing else changes |
| Files.MarkExecutable | install-anarqq-demo.py:271 | `chmod` sets the executable bit of a regular file and changes no other path |
| Files.CompleteFile | install-anarqq-demo.py:248-252 | the remaining writes through an open handle leave the file holding the whole text, with its mode kept, and change no other path |
| Files.CopyFile | install-anarqq-demo.py:236 | `copy2` to an absent target succeeds exactly when the source is a regular file and the target's parent a directory, and then the target is a copy of the source, mode included |
| Files.Prune | install-anarqq-demo.py:200-201 | `rmtree` removes every path below the root and nothing outside it |
| Files.Replace | install-anarqq-demo.py:200-202 | after `rmtree` and `move` the subtree at the root is exactly the moved tree, and nothing outside the root changed |
| Probing.TrimStart | install-anarqq-demo.py:74 | the result is a suffix that does not start with whitespace, and everything cut off is whitespace |
| Probing.TrimEnd | install-anarqq-demo.py:74 | the result is a prefix that does not end with whitespace, and everything cut off is whitespace |
| Probing.StripIsInfix | install-anarqq-demo.py:74 | `strip()` returns the infix that begins right after the leading whitespace |
| Probing.StripCutsTrailingSpace | install-anarqq-demo.py:74 | everything `strip()` cuts after the kept infix is whitespace |
| Probing.Strip | install-anarqq-demo.py:74 | `strip()` never lengthens its input, and what it keeps is empty or neither starts nor ends with whitespace |
| Probing.VersionProbe | install-anarqq-demo.py:69-76 | a tool is available exactly when it exited with 0; the version is its stripped output, and empty on a timeout or a missing program |
| DownloadProgress.Percent | install-anarqq-demo.py:150 | the percentage never exceeds 100, is 100 exactly when the bytes reported reach the total, is not negative for non-negative counts, and below 100 is the floor of bytes × 100 / total |
| DownloadProgress.PercentMonotone | install-anarqq-demo.py:150 | more blocks never give a lower percentage |
| DownloadProgress.HookEvents | install-anarqq-demo.py:148-151 | the hook forwards at most one event per report, each labelled as a download tick and at most 100 |
| DownloadProgress.HookEventsOfConsecutive | install-anarqq-demo.py:148-153 | with a known total, the hook forwards one event per report, the k-th being the percentage of block k |
| DownloadProgress.HookEventsNonDecreasing | install-anarqq-demo.py:148-153 | within one download the forwarded percentages never decrease |
| DownloadProgress.HookEventsInRange | install-anarqq-demo.py:148-153 | within one download every forwarded percentage lies between 0 and 100 |
| DownloadProgress.NonNegativePercent | install-anarqq-demo.py:150 | non-negative block counts, block sizes and totals give a non-negative percentage |
| DownloadProgress.HookEventsSilent | install-anarqq-demo.py:149 | without a known total size nothing is forwarded |
| Steps.LogStep | install-anarqq-demo.py:50-62 | a log call appends the record to the stream, and to the log file exactly when the install root is a directory; nothing else changes |
| Steps.ProgressStep | install-anarqq-demo.py:64-67 | a progress update appends one event and changes nothing else |
| Steps.RequirementsLog | install-anarqq-demo.py:80-127 | the check logs seven records: two INFO lines, then one per tool and the disk; only missing node, missing npm and a short disk are ERRORs, git and docker never are |
| Steps.DiskRecord | install-anarqq-demo.py:117-127 | the disk record is an ERROR exactly when the free space is found short, and a WARNING when it cannot be read |
| Steps.RequirementsMet | install-anarqq-demo.py:78-129 | the requirements pass exactly when the check logs no ERROR record |
| Steps.RequirementsStep | install-anarqq-demo.py:78-129 | the check logs the seven requirement records, starts the four version probes, touches no file, and passes exactly when node and npm answer and the disk was not found short |
| Steps.MkdirStep | install-anarqq-demo.py:135-137 | one `mkdir` returns exactly when its path is a directory, or is absent under a directory; it then leaves a directory there, changes only that path, and changes nothing when it raises |
| Steps.Mkdirs | install-anarqq-demo.py:135-137 | the three `mkdir`s return exactly when the install root is a directory or is absent under one, and `demo/` and `core/` are directories or absent; then all three are directories and nothing else changed |
| Steps.DirectoriesStep | install-anarqq-demo.py:131-142 | only the install root, `demo/` and `core/` may change; the step returns exactly when the root is a directory or absent under one and the other two are directories or absent, and then all three are directories |
| Steps.DownloadStep | install-anarqq-demo.py:144-154 | a download starts one fetch, changes no file, adds exactly the hook's events to the progress, and returns exactly when the download completed |
| Steps.ExtractStep | install-anarqq-demo.py:156-163 | unpacking starts one unpack, changes no file and returns exactly when the archive could be read, with or without members |
| Steps.ZipFallbackStep | install-anarqq-demo.py:186-203 | the archive fallback changes nothing outside the destination, fetches the archive first, starts only that fetch and unpacking, and adds exactly the download's ticks to the progress |
| Steps.MoveStep | install-anarqq-demo.py:197-203 | the first unpacked entry replaces the destination; with no entry, or when a non-directory stands in the way, the filesystem is unchanged |
| Steps.WorkingCopy | install-anarqq-demo.py:172-181 | what git leaves is a directory holding `.git` |
| Steps.GitStep | install-anarqq-demo.py:169-184 | the git branch changes nothing outside the destination, and its first operation is a pull when a `.git` exists there and a clone otherwise |
| Steps.GitDoneStep | install-anarqq-demo.py:172-182 | a successful git command leaves a working copy at the destination and starts nothing more |
| Steps.GitFallbackStep | install-anarqq-demo.py:183-190 | a failed git command logs the warning, then fetches the archive, changing nothing outside the destination |
| Steps.AcquireStep | install-anarqq-demo.py:165-203 | an acquisition changes nothing outside its destination and starts only the git probe, a pull or clone into the destination, and the fetch and unpack of its archive |
| Steps.DependenciesStep | install-anarqq-demo.py:205-225 | installing dependencies changes no file and starts only `npm install` and `npm run build` in the given directory |
| Steps.EnvironmentStep | install-anarqq-demo.py:227-237 | configuring the environment changes no path but `demo/.env` |
| Steps.ScriptStep | install-anarqq-demo.py:244-271 | writing one launcher succeeds exactly when the default encoding takes its emoji, its path is not a directory and its parent is one; it then holds the script, executable on POSIX. An unusable path changes nothing; an encoding that cannot take the emoji raises with the first line alone in the file; no other path changes |
| Steps.LaunchersStep | install-anarqq-demo.py:239-285 | creating launchers changes no path but the two launcher scripts |
| Steps.RunPhase | install-anarqq-demo.py:298-333 | each step of `install` adds no checkpoint of its own, changes only its own paths and starts only its own operations |
| Steps.Phases | install-anarqq-demo.py:298-332 | `install` runs six distinct phases, from the directories to the launchers, acquiring the core exactly when asked and skipping it otherwise |
| Steps.CheckpointOf | install-anarqq-demo.py:299-332 | each phase reports a checkpoint between 20 and 100, and 60 exactly for the core phase, whether it acquires or skips |
| Steps.FailStep | install-anarqq-demo.py:338-339 | the `except` clause appends an ERROR record naming the exception and changes no file |
| Orchestrator.AnarQQInstaller.constructor | install-anarqq-demo.py:42-47 | a new installer uses the default layout under the home directory and has logged, reported and started nothing |
| Orchestrator.AnarQQInstaller.Log | install-anarqq-demo.py:50-62 | appends the record to the stream, and to the log file exactly when the install root is a directory |
| Orchestrator.AnarQQInstaller.UpdateProgress | install-anarqq-demo.py:64-67 | appends one progress event and nothing else |
| Orchestrator.AnarQQInstaller.CheckCommand | install-anarqq-demo.py:69-76 | records the probe and returns `VersionProbe` of its outcome |
| Orchestrator.AnarQQInstaller.ReportTool | install-anarqq-demo.py:88-115 | logs the found or missing record for one tool and returns whether the tool answered |
| Orchestrator.AnarQQInstaller.ReportDisk | install-anarqq-demo.py:117-127 | logs the disk record and returns whether the free space was found short |
| Orchestrator.AnarQQInstaller.CheckSystemRequirements | install-anarqq-demo.py:78-129 | the new state and the verdict are those of `RequirementsStep` |
| Orchestrator.AnarQQInstaller.SetupDirectories | install-anarqq-demo.py:131-142 | the new state and the exception raised are those of `DirectoriesStep` |
| Orchestrator.AnarQQInstaller.ProgressHook | install-anarqq-demo.py:148-151 | appends the hook's events for one report and changes nothing else |
| Orchestrator.AnarQQInstaller.DownloadFile | install-anarqq-demo.py:144-154 | the new state and the exception raised are those of `DownloadStep` |
| Orchestrator.AnarQQInstaller.ExtractZip | install-anarqq-demo.py:156-163 | the new state and the exception raised are those of `ExtractStep` |
| Orchestrator.AnarQQInstaller.CloneOrDownloadRepo | install-anarqq-demo.py:165-203 | the new state and the exception raised are those of `AcquireStep` |
| Orchestrator.AnarQQInstaller.CloneWithGit | install-anarqq-demo.py:169-184 | the new state and the exception raised are those of `GitStep` |
| Orchestrator.AnarQQInstaller.DownloadZip | install-anarqq-demo.py:186-203 | the new state and the exception raised are those of `ZipFallbackStep` |
| Orchestrator.AnarQQInstaller.InstallDependencies | install-anarqq-demo.py:205-225 | the new state and the exception raised are those of `DependenciesStep` |
| Orchestrator.AnarQQInstaller.SetupEnvironment | install-anarqq-demo.py:227-237 | the new state and the exception raised are those of `EnvironmentStep` |
| Orchestrator.AnarQQInstaller.CreateLaunchers | install-anarqq-demo.py:239-285 | the new state and the exception raised are those of `LaunchersStep` |
| Orchestrator.AnarQQInstaller.Perform | install-anarqq-demo.py:298-333 | runs one phase as `RunPhase` does and reports its checkpoint only when it returned normally |
| Orchestrator.AnarQQInstaller.Proceed | install-anarqq-demo.py:298-333 | once a phase has raised, the later ones are passed by without any change of state |
| Orchestrator.AnarQQInstaller.PerformPhases | install-anarqq-demo.py:298-340 | the new state and the result are those of `RunPhases` over the six phases |
| Orchestrator.AnarQQInstaller.Install | install-anarqq-demo.py:287-340 | the new state and the returned flag are those of `RunInstall` |
| InstallProperties.CheckpointValues | install-anarqq-demo.py:300-333 | the k-th value is the checkpoint of the k-th phase |
| InstallProperties.PhasesCheckpointValues | install-anarqq-demo.py:300-333 | with or without the core the phases' checkpoints are 20, 40, 60, 80, 90, 100 |
| InstallProperties.PhasesExtend | install-anarqq-demo.py:298-340 | running phases only appends to the logs, the progress and the operations |
| InstallProperties.PhasesReportPrefix | install-anarqq-demo.py:298-336 | phases report a prefix of their checkpoints, all of them exactly when the run succeeds |
| InstallProperties.RunReportsMilestones | install-anarqq-demo.py:287-340 | a run reports a prefix of 0, 10, 20, 40, 60, 80, 90, 100, all of it exactly when it returns True, and only 0 when the requirements fail |
| InstallProperties.MetRunReportsMilestones | install-anarqq-demo.py:287-336 | once the requirements pass, the run reports a prefix of the milestones, all of them exactly on success |
| InstallProperties.MetRunIsPhases | install-anarqq-demo.py:290-296 | once the requirements pass, the run is the phases started after checkpoints 0 and 10 |
| InstallProperties.PhasesReportMilestones | install-anarqq-demo.py:298-336 | after checkpoints 0 and 10 the phases complete a prefix of the milestones, all of them exactly on success |
| InstallProperties.RequirementsCheckpoints | install-anarqq-demo.py:290-293 | the requirements check reports checkpoint 0 and no other |
| InstallProperties.PhasesEndWithVerdict | install-anarqq-demo.py:298-340 | phases end with the success record when they return True and with an ERROR record naming an exception otherwise |
| InstallProperties.RunEndsWithVerdict | install-anarqq-demo.py:287-340 | `install` returns True only after the completion record, and False only after an ERROR record |
| InstallProperties.RequirementsFailureAborts | install-anarqq-demo.py:290-295 | failed requirements end the run at once: only checkpoint 0, only the probes, no file changed, the requirement records then an ERROR |
| InstallProperties.RequirementsIgnoreOptionalTools | install-anarqq-demo.py:103-115 | whatever git and docker answer, the verdict is the same |
| InstallProperties.PhasesFrame | install-anarqq-demo.py:298-333 | a path every phase leaves alone is unchanged by the run |
| InstallProperties.RunStaysInsideInstallDir | install-anarqq-demo.py:287-340 | nothing outside the install directory changes in any run |
| InstallProperties.OutsideUntouched | install-anarqq-demo.py:298-333 | no phase touches a path outside the install directory |
| InstallProperties.CoreUntouchedUnlessRequested | install-anarqq-demo.py:311-321 | without `install_core` nothing below `core/` changes |
| InstallProperties.CoreUntouchedByDemoRun | install-anarqq-demo.py:311-321 | no phase of a run without the core touches a path below `core/` |
| InstallProperties.PhasesCalls | install-anarqq-demo.py:298-333 | a run of phases starts only operations its phases may start |
| InstallProperties.PhasesWithinRunCalls | install-anarqq-demo.py:298-333 | each phase's operations are among the run's |
| InstallProperties.ProbesWithin | install-anarqq-demo.py:88-111 | the requirements check starts only the four version probes |
| InstallProperties.RunStartsOnly | install-anarqq-demo.py:287-340 | a run starts only the probes, the demo acquisition, npm in `demo/`, and the core acquisition when asked for |
| InstallProperties.CoreWorkNotInDemoRun | install-anarqq-demo.py:311-321 | no operation on the core repository is among those of a run without the core |
| InstallProperties.AcquisitionsApart | install-anarqq-demo.py:303-318 | acquisitions into different destinations from different archives share only the git probe |
| InstallProperties.ProbesAreQueries | install-anarqq-demo.py:72-73 | the requirement probes only ever ask for a version |
| InstallProperties.CoreNotFetchedUnlessRequested | install-anarqq-demo.py:311-321 | without `install_core` no pull, clone, fetch or unpack of the core is started |
| InstallProperties.AcquireStartsWork | install-anarqq-demo.py:165-190 | an acquisition first probes git, then pulls into an existing working copy, clones, or without git fetches the archive |
| InstallProperties.AcquireWithoutGit | install-anarqq-demo.py:167-190 | without git the archive is fetched straight away and git is never run |
| InstallProperties.GitSuccessLeavesWorkingCopy | install-anarqq-demo.py:169-182 | a successful git command returns normally with a working copy at the destination and starts no download |
| InstallProperties.GitFailureFallsBack | install-anarqq-demo.py:183-190 | a failing git command is logged as a WARNING and the archive is fetched next |
| InstallProperties.EmptyArchiveKeepsDestination | install-anarqq-demo.py:197-198 | an extraction directory that exists but is empty leaves the destination as it was, without error |
| InstallProperties.MemberlessArchiveRaises | install-anarqq-demo.py:188-197 | an archive without members raises when the extraction directory is listed, after the extraction was reported, with the destination unchanged and only the fetch and unpack started |
| InstallProperties.BadArchiveRaises | install-anarqq-demo.py:156-161 | an archive that cannot be read raises on unpacking, after the fetch and the extracting record, before anything is moved, with no file changed |
| InstallProperties.ArchiveReplacesDestination | install-anarqq-demo.py:197-203 | an archive with entries replaces the destination by the first one, and fails only on a non-directory at the destination, changing nothing |
| InstallProperties.FailedDownloadRaises | install-anarqq-demo.py:190 | a failed download raises after the fetch, before unpacking or changing any file |
| InstallProperties.DownloadRestartsAtZero | install-anarqq-demo.py:148-153 | after a positive checkpoint the first tick of a download is 0%, so the progress stream decreases |
| InstallProperties.FailedInstallRaises | install-anarqq-demo.py:211-225 | a failing `npm install` is logged as an ERROR and re-raised, and no build is started |
| InstallProperties.FailedBuildWarns | install-anarqq-demo.py:216-221 | after a good install a failing build only warns and the step returns normally |
| InstallProperties.FailedInstallFailsPhases | install-anarqq-demo.py:323-340 | phases that include the dependency step fail when `npm install` fails |
| InstallProperties.FailedInstallFailsRun | install-anarqq-demo.py:323-340 | a failing `npm install` makes `install` return False |
| InstallProperties.EnvironmentKeepsExisting | install-anarqq-demo.py:232-237 | an existing `.env`, or a missing `.env.example`, leaves every file as it was |
| InstallProperties.EnvironmentCreatesFromExample | install-anarqq-demo.py:232-237 | without `.env`, one is created exactly when `.env.example` exists, as its copy; the step raises exactly when the example is not a regular file |
| InstallProperties.LaunchersWritten | install-anarqq-demo.py:239-285 | on success both launchers hold the host OS's scripts, executable on POSIX |
| InstallProperties.LaunchersNeedFiles | install-anarqq-demo.py:239-285 | with the install directory present, launchers succeed exactly when the default encoding takes the emoji and neither script path is a directory |
| InstallProperties.LaunchersUnencodable | install-anarqq-demo.py:244-258 | when the default encoding cannot take the emoji, the step raises on the start script, which keeps only its first line, and the stop script is left as it was |
| InstallProperties.LaunchersInstall | install-anarqq-demo.py:239-285 | on a laid-out root, launchers whose emoji can be encoded return normally with both scripts in place |
| InstallProperties.SucceedFromLaunchers | install-anarqq-demo.py:331-339 | with the directories in place and no directory at the script paths, the run returns True exactly when the emoji can be encoded, with both launchers written; otherwise it ends with the ERROR naming the start script |
| InstallProperties.SucceedFromEnvironment | install-anarqq-demo.py:327-339 | when `.env` exists or `.env.example` is absent or a regular file, the environment phase returns, and the run ends as the launchers decide |
| InstallProperties.SucceedFromDependencies | install-anarqq-demo.py:323-339 | with `npm install` succeeding, whatever the build does, the remaining phases reach the launchers, and the run ends as they decide |
| InstallProperties.CoreCheckoutLaid | install-anarqq-demo.py:311-318 | a core checkout that git delivers keeps the directories, the script paths and what `demo/` holds |
| InstallProperties.SucceedFromCore | install-anarqq-demo.py:311-339 | with the core skipped, or fetched by git, the run reaches the launchers, and ends as they decide |
| InstallProperties.DemoCheckoutLaid | install-anarqq-demo.py:302-308 | a demo checkout that git delivers returns normally, keeps the layout and lets `.env` be prepared |
| InstallProperties.SucceedFromDemo | install-anarqq-demo.py:302-339 | once the directories stand, a cooperating world carries every phase up to the launchers, and the run ends as they decide |
| InstallProperties.DirectoriesOnFreshRoot | install-anarqq-demo.py:131-142 | on a fresh install root under a directory, the directories are created and no directory stands at the script paths |
| InstallProperties.SucceedFromStart | install-anarqq-demo.py:298-339 | on a fresh install root a cooperating world carries all phases up to the launchers, and the run returns True exactly when their emoji can be encoded |
| InstallProperties.RunSucceeds | install-anarqq-demo.py:287-339 | on a fresh install root, with the requirements met, git delivering, `npm install` succeeding and a usable `.env.example`, `install` returns True exactly when the launchers' emoji can be encoded. It then reports every milestone, ends with the completion record and leaves the directories and both launchers in place; otherwise it ends with the ERROR naming the start script |
| InstallProperties.PhasesStartCoreWork | install-anarqq-demo.py:311-318 | phases that include the core acquisition and succeed have started an operation on the core repository |
| InstallProperties.CoreFetchedWhenRequested | install-anarqq-demo.py:311-318 | with `install_core`, a run that returns True has started a pull, clone, fetch or unpack of the core |
| InstallProperties.FirstPhaseProgressKept | install-anarqq-demo.py:298-340 | the progress of the first phase stays at the head of the whole run's progress |
| InstallProperties.DemoArchiveTicksLead | install-anarqq-demo.py:186-190 | when the demo is fetched as an archive, the download's ticks follow directly what was reported before |
| InstallProperties.FirstTickIsZero | install-anarqq-demo.py:148-151 | a report of block 0 with a known total forwards 0% first |
| InstallProperties.RunProgressFalls | install-anarqq-demo.py:298-308 | a run that fetches the demo as an archive reports 0% right after checkpoint 20, so its progress stream is not non-decreasing |

## Left out

- The graphical and console front ends (`InstallerGUI`, `console_install`,
  `main`) are not part of this model. The GUI calls `install` directly from
  its button callback on the Tk event-loop thread; that is not modelled.
- The console output and the log callback are modelled as one stream of
  records. Message texts drop the emoji, the interpolated paths, versions
  and sizes, and the exception text; a fault's `FaultText` stands for
  `str(e)`.
- `install.log` is kept as its own sequence of records, outside the
  filesystem map. A record reaches it when the install directory is a
  directory, while the code tests only that the parent exists; a regular
  file standing there would make every log call raise, which is not
  modelled. `log_file.touch()` is not modelled.
- The Python version string, the subprocess outcomes, the free disk space,
  the download reports, the archive contents, the order of `iterdir` and
  the tree git leaves are inputs, not computed.
- `check_command` is modelled for a normal exit, a timeout and a missing
  program. Other `OSError`s, which the code does not catch, are not
  modelled.
- The disk test compares integer bytes with 5 × 1024³. This is the code's
  floating-point comparison for every byte count below 2⁵³. The printed
  `.1f` figure is left out.
- `Probing.Strip` removes ASCII whitespace only, where Python's `str.strip`
  also removes other Unicode whitespace.
- The git branch distinguishes a non-zero exit, which falls back to the
  archive, from a failure to start git, which raises. Git's own checks and
  the network are not modelled.
- The temporary directory, the downloaded ZIP file, the extraction
  directory and their cleanup live outside the modelled filesystem.
  `shutil.move` is modelled as putting the first unpacked tree in place of
  the destination; symbolic links are not modelled.
- What `npm install` and `npm run build` write is not modelled: neither
  `node_modules` and the build output below `demo/`, nor npm's cache and
  anything else npm writes outside `demo/`. The model's filesystem does not
  change during those steps.
- InstallProperties.RunStaysInsideInstallDir: holds for the modelled
  filesystem only; what npm writes outside the install directory, such as
  its cache under the home directory, is not modelled.
- A failed `git pull` or `git clone` may leave files behind at the
  destination. The model treats a failing git command as changing no file
  before the archive fallback runs.
- Whether the default encoding can take the launchers' emoji is an input,
  for both OS families. Python's UTF-8 mode and the locale are not modelled.
- The launcher scripts' text is kept symbolic, as the OS family and the
  `demo/` path they start from. Only the first line, the one without an
  emoji, is written out.
- `min_node_version`, `min_python_version` and `required_memory_gb` are not
  modelled, because the code never reads them.
- Steps.RunPhases: its own contract is empty. Its properties are the
  `InstallProperties` lemmas, and `PerformPhases` is proved equal to it.
- Steps.RunInstall: its own contract is empty. Its properties are the
  `InstallProperties` lemmas, and `Install` is proved equal to it.
