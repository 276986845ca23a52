/**
 * What an installation run makes observable: log records, progress events,
 * the external operations it starts, and the faults that abort it.
 */
module Events {
  import opened Paths

  datatype Option<T> = None | Some(value: T)

  datatype Level = Info | Warning | Error

  /** One line of the log, `[LEVEL] message`. */
  datatype LogRecord = LogRecord(level: Level, message: string)

  /**
   * The stage label that accompanies a progress value. `Downloading` labels
   * the percentages forwarded from an archive download; every other label
   * belongs to one of the orchestrator's own checkpoints.
   */
  datatype Label =
    | Starting
    | RequirementsChecked
    | DirectoriesCreated
    | DemoDownloaded
    | CoreDownloaded
    | CoreSkipped
    | DependenciesInstalled
    | EnvironmentConfigured
    | Completed
    | Downloading(description: string)

  datatype ProgressEvent = ProgressEvent(value: int, stage: Label)

  /** An operation on the outside world: a subprocess, a download or an unpacking. */
  datatype External =
    | VersionQuery(tool: string)
    | GitPull(dir: Path)
    | GitClone(url: string, dir: Path)
    | Fetch(url: string)
    | Unpack(url: string)
    | NpmInstall(dir: Path)
    | NpmBuild(dir: Path)

  /** The exceptions a step can raise. */
  datatype Fault =
    | NotADirectory(path: Path)       // an existing non-directory where a directory is needed
    | ParentMissing(path: Path)       // the parent of a path to create is not a directory
    | IsADirectory(path: Path)        // a directory where a regular file is needed
    | NoSuchFile(path: Path)          // the source of a copy is missing
    | ToolLaunchFailed(tool: string)  // the executable could not be started
    | CommandFailed(tool: string, code: int)
    | DownloadFailed(url: string)
    | BadArchive(url: string)
    | ExtractionMissing(url: string)  // the archive had no member, so nothing was unpacked to list
    | Unencodable(path: Path)         // the default text encoding cannot encode what is written to the file

  function FaultText(f: Fault): string
  {
    match f
    case NotADirectory(_) => "not a directory"
    case ParentMissing(_) => "no such file or directory"
    case IsADirectory(_) => "is a directory"
    case NoSuchFile(_) => "no such file or directory"
    case ToolLaunchFailed(t) => t + ": command not found"
    case CommandFailed(t, _) => t + " returned non-zero exit status"
    case DownloadFailed(u) => "download of " + u + " failed"
    case BadArchive(u) => "bad zip file from " + u
    case ExtractionMissing(_) => "no such file or directory"
    case Unencodable(_) => "codec can't encode character"
  }

  predicate IsCheckpoint(e: ProgressEvent)
  {
    !e.stage.Downloading?
  }

  /** The values of the orchestrator's own checkpoints, in order, download ticks left out. */
  function Checkpoints(events: seq<ProgressEvent>): (r: seq<int>)
    ensures |r| <= |events|
    ensures forall v | v in r :: exists e | e in events :: IsCheckpoint(e) && e.value == v
  {
    if events == [] then []
    else (if IsCheckpoint(events[0]) then [events[0].value] else []) + Checkpoints(events[1..])
  }

  lemma {:induction false} CheckpointsAppend(a: seq<ProgressEvent>, b: seq<ProgressEvent>)
    ensures Checkpoints(a + b) == Checkpoints(a) + Checkpoints(b)
  {
    if a != [] {
      assert (a + b)[1..] == a[1..] + b;
      CheckpointsAppend(a[1..], b);
    } else {
      assert a + b == b;
    }
  }

  /** A stream of download ticks contributes no checkpoint. */
  lemma {:induction false} CheckpointsOfTicks(events: seq<ProgressEvent>)
    requires forall e | e in events :: e.stage.Downloading?
    ensures Checkpoints(events) == []
  {
    if events != [] {
      assert events[0] in events;
      CheckpointsOfTicks(events[1..]);
    }
  }

  ghost predicate NonDecreasing(values: seq<int>)
  {
    forall i, j | 0 <= i < j < |values| :: values[i] <= values[j]
  }

  function Values(events: seq<ProgressEvent>): (r: seq<int>)
    ensures |r| == |events| && forall i | 0 <= i < |events| :: r[i] == events[i].value
  {
    seq(|events|, i requires 0 <= i < |events| => events[i].value)
  }

  ghost predicate ErrorFree(records: seq<LogRecord>)
  {
    forall r | r in records :: r.level != Error
  }

  /** A seven-record log is free of errors exactly when each of its records is. */
  lemma SevenLevels(log: seq<LogRecord>)
    requires |log| == 7
    ensures ErrorFree(log) <==>
      log[0].level != Error && log[1].level != Error && log[2].level != Error && log[3].level != Error
      && log[4].level != Error && log[5].level != Error && log[6].level != Error
  {
    if !ErrorFree(log) {
      var r :| r in log && r.level == Error;
      var i :| 0 <= i < 7 && log[i] == r;
    }
  }

  /** Appending seven items one at a time appends the seven of them. */
  lemma AppendSeven<T>(a: seq<T>, r: seq<T>)
    requires |r| == 7
    ensures a + [r[0]] + [r[1]] + [r[2]] + [r[3]] + [r[4]] + [r[5]] + [r[6]] == a + r
  {
    assert r == [r[0], r[1], r[2], r[3], r[4], r[5], r[6]];
  }

  /** Appending four items one at a time appends the four of them. */
  lemma AppendFour<T>(a: seq<T>, r: seq<T>)
    requires |r| == 4
    ensures a + [r[0]] + [r[1]] + [r[2]] + [r[3]] == a + r
  {
    assert r == [r[0], r[1], r[2], r[3]];
  }
}
