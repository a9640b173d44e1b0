/** The legacy worker: the same job run as the supervisor's, with its own
    differences. It creates the suite archive directory instead of removing
    the job's, hands the child `--unlock` and a `PYTHONPATH` that starts
    with the suite checkout, symlinks its log into the job archive, and
    never unlocks or nukes machines itself. */
module Worker {
  import opened PyValues
  import opened Paths
  import opened Effects
  import opened JobConfig
  import opened Commands
  import opened Machines
  import opened Archive
  import opened Watchdog

  /** What the worker learns from the outside world while it runs: the
      reimaging helper, the watchdog's clock and polls, the job's archive
      record and remotes for `transfer_archives`, the name of the temporary
      config file and the process environment. */
  datatype Outside = Outside(
    reimage: (FakeContext, Value, Value) -> Result<Value>,
    start: int,
    obs: seq<Observation>,
    record: Option<seq<Phase>>,
    remotes: seq<string>,
    pull: Puller,
    tmpName: string,
    env: map<string, string>)

  /** How a worker run that did not raise ends: it returned, or the
      watchdog is still polling a child that has not exited within the
      observations given. */
  datatype Outcome = Returned | StillWatching

  predicate IsSpawn(e: Event) { e.Spawn? }
  predicate IsMakeDirs(e: Event) { e.MakeDirs? }

  /** The effects a suite-boundary job may have in the worker. */
  predicate BoundaryEvent(e: Event) { e.DeleteJobs? || e.MakeDirs? || e.Spawn? }

  /** The effects of the watchdog, or of the symlink and the plain wait. */
  predicate WatchEvent(e: Event) { e.Symlink? || e.Transfer? || e.Kill? || e.Push? || e.Wait? }

  // ---------------------------------------------------------------------
  // Suite-boundary jobs

  /** The boundary branch of the worker's `run_job`: the job's results are
      deleted first when there is a results server. A failure of the delete
      is only logged, but the handler that logs it reads `job_id` again, so
      a missing `job_id` still raises. Then the suite archive directory is
      created, and `teuthology-results` is started detached, which raises
      when a word of its command is not a string. The job's archive is left
      in place. */
  function BoundaryRun(cfg: Config, binPath: string, archiveDir: string, settings: Settings, host: Host): (r: Traced<Outcome>)
    requires "name" in cfg && cfg["name"].VStr?
    ensures settings.resultsServer && "job_id" !in cfg ==> r == Traced([], Err(KeyError("job_id")))
    ensures !(settings.resultsServer && "job_id" !in cfg) ==>
      var args := ResultsArgs(cfg, binPath, archiveDir, settings, host);
      var suiteDir := Join(archiveDir, host.munge(cfg["name"].s));
      var deleted := if settings.resultsServer then [DeleteJobs(cfg["name"], cfg["job_id"])] else [];
      && |r.events| > |deleted| && r.events[..|deleted|] == deleted
      && r.events[|deleted|] == MakeDirs(suiteDir)
      && (args.Err? ==> r == Traced(deleted + [MakeDirs(suiteDir)], Err(args.error)))
      && (args.Ok? && !ResultsWordsAreStr(cfg) ==> r == Traced(deleted + [MakeDirs(suiteDir)], Err(TypeError(PopenError))))
      && (args.Ok? && ResultsWordsAreStr(cfg) ==>
            && r.result == Ok(Returned)
            && r.events == deleted + [MakeDirs(suiteDir), Spawn(args.value, true, None)]
            && args.value[2] == VStr(suiteDir))
  {
    if settings.resultsServer && "job_id" !in cfg then Traced([], Err(KeyError("job_id")))
    else
      var name := cfg["name"].s;
      var deleted := if settings.resultsServer then [DeleteJobs(cfg["name"], cfg["job_id"])] else [];
      var suiteDir := Join(archiveDir, host.munge(name));
      match ResultsArgs(cfg, binPath, archiveDir, settings, host)
      case Err(e) =>
        AfterDeleted(deleted, [MakeDirs(suiteDir)]);
        Traced(deleted + [MakeDirs(suiteDir)], Err(e))
      case Ok(args) =>
        if !Joinable(args) then
          AfterDeleted(deleted, [MakeDirs(suiteDir)]);
          Traced(deleted + [MakeDirs(suiteDir)], Err(TypeError(PopenError)))
        else
          assert args[..5][2] == VStr(suiteDir);
          AfterDeleted(deleted, [MakeDirs(suiteDir), Spawn(args, true, None)]);
          Traced(deleted + [MakeDirs(suiteDir), Spawn(args, true, None)], Ok(Returned))
  }

  lemma AfterDeleted(deleted: seq<Event>, rest: seq<Event>)
    requires rest != []
    ensures var e := deleted + rest;
      |e| > |deleted| && e[..|deleted|] == deleted && e[|deleted|] == rest[0]
  {
  }

  // ---------------------------------------------------------------------
  // Test jobs

  /** The worker's `transfer_archives`, bound to what the outside world
      reports for this job. */
  function TransferOf(out: Outside, host: Host): Transferer {
    (c: Config) => WorkerTransfer(c, out.record, out.remotes, out.pull, host)
  }

  /** The child's run: under the watchdog when there is a results server;
      otherwise the worker log is symlinked (the paths are read first, a
      failing symlink is only logged) and the child is waited for. */
  function Supervise(cfg: Config, settings: Settings, out: Outside, host: Host): (w: Watch)
    ensures settings.resultsServer ==> w == RunWithWatchdog(WorkerVariant, cfg, settings, out.start, TransferOf(out, host), out.obs)
    ensures !settings.resultsServer ==>
      && (w.state.Finished? <==> "worker_log" in cfg && "archive_path" in cfg)
      && (w.state.Finished? ==> w == Watch(SymlinkWorkerLog(cfg["worker_log"], cfg["archive_path"]) + [Wait], cfg, Finished))
      && (!w.state.Finished? ==> w.events == [] && w.state.Raised?)
    ensures forall k :: 0 <= k < |w.events| ==> WatchEvent(w.events[k])
  {
    if settings.resultsServer then
      RunWithWatchdogKinds(WorkerVariant, cfg, settings, out.start, TransferOf(out, host), out.obs);
      RunWithWatchdog(WorkerVariant, cfg, settings, out.start, TransferOf(out, host), out.obs)
    else
      match Lookup(cfg, "worker_log")
      case Err(e) => Watch([], cfg, Raised(e))
      case Ok(workerLog) =>
        match Lookup(cfg, "archive_path")
        case Err(e) => Watch([], cfg, Raised(e))
        case Ok(archive) =>
          var events := SymlinkWorkerLog(workerLog, archive) + [Wait];
          assert forall k :: 0 <= k < |events| ==> WatchEvent(events[k]) by {
            forall k | 0 <= k < |events| ensures WatchEvent(events[k]) {
              if k < |events| - 1 { assert events[k] == SymlinkWorkerLog(workerLog, archive)[k]; }
            }
          }
          Watch(events, cfg, Finished)
  }

  /** The child's command: `teuthology --unlock ...` built from the merged
      config, reading the temporary config file, with the suite checkout
      at the front of its `PYTHONPATH`. */
  function ChildSpawn(cfg: Config, binPath: string, verbose: bool, suitePath: Value, out: Outside): (r: Result<Event>)
    ensures r.Ok? <==>
      (WorkerExecArgs(MergeLegacy(cfg), binPath, verbose, out.tmpName).Ok? && suitePath.VStr? && WordsAreStr(MergeLegacy(cfg)))
    ensures WorkerExecArgs(MergeLegacy(cfg), binPath, verbose, out.tmpName).Ok? && !suitePath.VStr? ==>
      r == Err(TypeError("suite_path"))
    ensures (WorkerExecArgs(MergeLegacy(cfg), binPath, verbose, out.tmpName).Ok? && suitePath.VStr?
             && !WordsAreStr(MergeLegacy(cfg))) ==> r == Err(TypeError(JoinError))
    ensures r.Ok? ==> r.value == Spawn(WorkerExecArgs(MergeLegacy(cfg), binPath, verbose, out.tmpName).value,
      false, Some(ChildPythonPath(suitePath.s, out.env)))
  {
    var args :- WorkerExecArgs(MergeLegacy(cfg), binPath, verbose, out.tmpName);
    if !suitePath.VStr? then Err(TypeError("suite_path"))
    else if !Joinable(args) then Err(TypeError(JoinError))
    else Ok(Spawn(args, false, Some(ChildPythonPath(suitePath.s, out.env))))
  }

  /** How the run ends once the child was started. */
  function Ending(w: Watch): (r: Result<Outcome>)
    ensures r.Err? <==> w.state.Raised?
    ensures r == Ok(StillWatching) <==> w.state.Polling?
  {
    match w.state
    case Raised(e) => Err(e)
    case Polling => Ok(StillWatching)
    case Finished => Ok(Returned)
  }

  /** The test branch after the archive directory exists: the job id and
      suite path are read before the legacy merge, then the child is
      started and supervised. */
  function Launch(cfg: Config, binPath: string, verbose: bool, settings: Settings, out: Outside, host: Host): (r: Traced<Outcome>)
    ensures "job_id" !in cfg ==> r == Traced([], Err(KeyError("job_id")))
    ensures "job_id" in cfg && "suite_path" !in cfg ==> r == Traced([], Err(KeyError("suite_path")))
    ensures "job_id" in cfg && "suite_path" in cfg ==>
      var spawn := ChildSpawn(cfg, binPath, verbose, cfg["suite_path"], out);
      && (spawn.Err? ==> r == Traced([], Err(spawn.error)))
      && (spawn.Ok? ==>
            var w := Supervise(MergeLegacy(cfg), settings, out, host);
            r == Traced([spawn.value] + w.events, Ending(w)))
  {
    if "job_id" !in cfg then Traced([], Err(KeyError("job_id")))
    else if "suite_path" !in cfg then Traced([], Err(KeyError("suite_path")))
    else
      match ChildSpawn(cfg, binPath, verbose, cfg["suite_path"], out)
      case Err(e) => Traced([], Err(e))
      case Ok(spawn) =>
        var w := Supervise(MergeLegacy(cfg), settings, out, host);
        Traced([spawn] + w.events, Ending(w))
  }

  /** The test branch of the worker's `run_job`: create the job's archive
      directory, then launch and supervise the child. */
  function TestRun(cfg: Config, binPath: string, verbose: bool, settings: Settings, out: Outside, host: Host): (r: Traced<Outcome>)
    ensures !("archive_path" in cfg && cfg["archive_path"].VStr?) ==> r.events == [] && r.result.Err?
    ensures "archive_path" in cfg && cfg["archive_path"].VStr? ==>
      var launched := Launch(cfg, binPath, verbose, settings, out, host);
      && r.events == [MakeDirs(cfg["archive_path"].s)] + launched.events
      && r.result == launched.result
  {
    match LookupStr(cfg, "archive_path")
    case Err(e) => Traced([], Err(e))
    case Ok(archive) =>
      var launched := Launch(cfg, binPath, verbose, settings, out, host);
      Traced([MakeDirs(archive)] + launched.events, launched.result)
  }

  /** The worker's `run_job`. Unlike the supervisor it creates a directory
      in either branch: the suite archive for a boundary job, the job's own
      archive, first of all, for a test job. */
  function RunJob(cfg: Config, binPath: string, archiveDir: string, verbose: bool, settings: Settings,
                  out: Outside, host: Host): (r: Traced<Outcome>)
    ensures !("name" in cfg && cfg["name"].VStr?) ==> r.events == [] && r.result.Err?
    ensures "name" in cfg && cfg["name"].VStr? && IsBoundary(cfg) && !(settings.resultsServer && "job_id" !in cfg) ==>
      MakeDirs(Join(archiveDir, host.munge(cfg["name"].s))) in r.events
    ensures "name" in cfg && cfg["name"].VStr? && !IsBoundary(cfg) && "archive_path" in cfg && cfg["archive_path"].VStr? ==>
      |r.events| > 0 && r.events[0] == MakeDirs(cfg["archive_path"].s)
    ensures "name" in cfg && cfg["name"].VStr? && IsBoundary(cfg) ==>
      r == BoundaryRun(cfg, binPath, archiveDir, settings, host)
    ensures "name" in cfg && cfg["name"].VStr? && !IsBoundary(cfg) ==>
      r == TestRun(cfg, binPath, verbose, settings, out, host)
  {
    match LookupStr(cfg, "name")
    case Err(e) => Traced([], Err(e))
    case Ok(name) =>
      if IsBoundary(cfg) then BoundaryRun(cfg, binPath, archiveDir, settings, host)
      else TestRun(cfg, binPath, verbose, settings, out, host)
  }

  /** The part of the worker's `main(args)` before `run_job`: the suite
      directory, named after the raw job name, the log file in it, and
      reimaging when the job lists targets. */
  function Prelude(cfg: Config, archiveDir: string, out: Outside, host: Host): (r: Traced<Config>)
    ensures !("name" in cfg && cfg["name"].VStr?) ==> r.events == [] && r.result.Err?
    ensures "name" in cfg && cfg["name"].VStr? ==>
      && |r.events| > 0 && r.events[0] == MakeDirs(Join(archiveDir, cfg["name"].s))
      && (WorkerLogPath(archiveDir, cfg).Ok? ==> |r.events| > 1 && r.events[1] == SetupLog(WorkerLogPath(archiveDir, cfg).value))
    ensures r.result == Err(SkipJob) ==> "targets" in cfg && ReimageMachines(cfg, WorkerVariant, host, out.reimage).result == Err(SkipJob)
    ensures "targets" !in cfg && r.result.Ok? ==> r.result.value == cfg
  {
    match LookupStr(cfg, "name")
    case Err(e) => Traced([], Err(e))
    case Ok(name) =>
      match WorkerLogPath(archiveDir, cfg)
      case Err(e) => Traced([MakeDirs(Join(archiveDir, name))], Err(e))
      case Ok(logPath) =>
        var head := [MakeDirs(Join(archiveDir, name)), SetupLog(logPath)];
        if "targets" in cfg then
          var reimaged := ReimageMachines(cfg, WorkerVariant, host, out.reimage);
          Traced(head + reimaged.events, reimaged.result)
        else Traced(head, Ok(cfg))
  }

  /** The worker's `main(args)`: the prelude, then `run_job`, whose SkipJob
      ends the worker normally. */
  function Main(cfg: Config, binPath: string, archiveDir: string, verbose: bool, settings: Settings,
                out: Outside, host: Host): (r: Traced<Outcome>)
    ensures var pre := Prelude(cfg, archiveDir, out, host);
      && |r.events| >= |pre.events| && r.events[..|pre.events|] == pre.events
      && (pre.result.Err? ==> r == Traced(pre.events, Err(pre.result.error)))
    ensures r.result != Err(SkipJob) || ("targets" in cfg && ReimageMachines(cfg, WorkerVariant, host, out.reimage).result == Err(SkipJob))
  {
    var pre := Prelude(cfg, archiveDir, out, host);
    match pre.result
    case Err(e) => Traced(pre.events, Err(e))
    case Ok(c) =>
      var run := RunJob(c, binPath, archiveDir, verbose, settings, out, host);
      assert (pre.events + run.events)[..|pre.events|] == pre.events;
      Traced(pre.events + run.events, if run.result == Err(SkipJob) then Ok(Returned) else run.result)
  }

  // ---------------------------------------------------------------------
  // Properties

  /** Whenever `teuthology-results` is started, the suite archive directory
      it gets as its `--archive-dir` was created before. */
  lemma BoundaryCreatesResultsDir(cfg: Config, binPath: string, archiveDir: string, settings: Settings, host: Host)
    requires "name" in cfg && cfg["name"].VStr?
    requires ResultsArgs(cfg, binPath, archiveDir, settings, host).Ok?
    ensures var r := BoundaryRun(cfg, binPath, archiveDir, settings, host);
      var args := ResultsArgs(cfg, binPath, archiveDir, settings, host).value;
      Spawn(args, true, None) in r.events ==>
        exists i, j :: 0 <= i < j < |r.events| && r.events[i] == MakeDirs(args[2].s) && r.events[j] == Spawn(args, true, None)
  {
    var r := BoundaryRun(cfg, binPath, archiveDir, settings, host);
    var args := ResultsArgs(cfg, binPath, archiveDir, settings, host).value;
    var n := |r.events|;
    if ResultsWordsAreStr(cfg) && !(settings.resultsServer && "job_id" !in cfg) {
      assert r.events[n - 2] == MakeDirs(args[2].s) && r.events[n - 1] == Spawn(args, true, None);
    } else if !(settings.resultsServer && "job_id" !in cfg) {
      var deleted := if settings.resultsServer then [DeleteJobs(cfg["name"], cfg["job_id"])] else [];
      assert r.events == deleted + [MakeDirs(Join(archiveDir, host.munge(cfg["name"].s)))];
      assert forall k :: 0 <= k < |r.events| ==> !r.events[k].Spawn?;
    }
  }

  /** A test job's child runs `teuthology --unlock` on the temporary config
      file, and its `PYTHONPATH` puts the suite checkout in front of the
      inherited one. */
  lemma ChildCommand(cfg: Config, binPath: string, verbose: bool, out: Outside)
    requires "suite_path" in cfg && cfg["suite_path"].VStr?
    requires ChildSpawn(cfg, binPath, verbose, cfg["suite_path"], out).Ok?
    ensures var spawn := ChildSpawn(cfg, binPath, verbose, cfg["suite_path"], out).value;
      var merged := MergeLegacy(cfg);
      && !spawn.detached
      && ParseExecArgs(spawn.args) == Some(ExecRequest(
           Join(binPath, "teuthology"), verbose || Truthy(merged["verbose"]), true,
           merged["owner"], merged["archive_path"], merged["name"], DescriptionOf(merged), out.tmpName))
      && spawn.pythonPath.Some?
      && (var suite := cfg["suite_path"].s;
          suite != [] && !StartsWith(suite, ':') && "PYTHONPATH" in out.env
            && out.env["PYTHONPATH"] != [] && !EndsWith(out.env["PYTHONPATH"], ':') ==>
            spawn.pythonPath.value == suite + ":" + out.env["PYTHONPATH"])
  {
    var suite := cfg["suite_path"].s;
    if suite != [] && !StartsWith(suite, ':') && "PYTHONPATH" in out.env
       && out.env["PYTHONPATH"] != [] && !EndsWith(out.env["PYTHONPATH"], ':') {
      PythonPathPrepends(suite, out.env["PYTHONPATH"]);
    }
  }

  /** The suite path is read before the legacy merge: a `suite_path` that
      only the nested config carries is not found. */
  lemma SuitePathReadBeforeMerge(cfg: Config, binPath: string, verbose: bool, settings: Settings,
                                 out: Outside, host: Host)
    requires "archive_path" in cfg && cfg["archive_path"].VStr? && "job_id" in cfg
    requires "suite_path" !in cfg && "suite_path" in LegacyEntries(cfg)
    ensures "suite_path" in MergeLegacy(cfg)
    ensures TestRun(cfg, binPath, verbose, settings, out, host).result == Err(KeyError("suite_path"))
  {
  }

  /** The worker leaves unlocking to the child it started with `--unlock`:
      its own trace never unlocks or nukes a machine. */
  lemma WorkerNeverUnlocks(cfg: Config, binPath: string, archiveDir: string, verbose: bool,
                           settings: Settings, out: Outside, host: Host)
    ensures var r := Main(cfg, binPath, archiveDir, verbose, settings, out, host);
      Count(r.events, IsUnlock) == 0 && Count(r.events, IsNuke) == 0
  {
    MainEventKinds(cfg, binPath, archiveDir, verbose, settings, out, host);
    NoMachineRelease(Main(cfg, binPath, archiveDir, verbose, settings, out, host).events);
  }

  lemma NoMachineRelease(events: seq<Event>)
    requires AllWorker(events)
    ensures Count(events, IsUnlock) == 0 && Count(events, IsNuke) == 0
  {
    assert forall k :: 0 <= k < |events| ==> !IsUnlock(events[k]) && !IsNuke(events[k]);
    CountNone(events, IsUnlock);
    CountNone(events, IsNuke);
  }

  /** Every effect the worker has of its own. */
  predicate WorkerEvent(e: Event) { BoundaryEvent(e) || WatchEvent(e) || e.SetupLog? || e.Reimage? }

  predicate AllWorker(events: seq<Event>) {
    forall k :: 0 <= k < |events| ==> WorkerEvent(events[k])
  }

  lemma AllWorkerAppend(a: seq<Event>, b: seq<Event>)
    requires AllWorker(a) && AllWorker(b)
    ensures AllWorker(a + b)
  {
    forall k | 0 <= k < |a + b| ensures WorkerEvent((a + b)[k]) {
      if k >= |a| { assert (a + b)[k] == b[k - |a|]; }
    }
  }

  lemma MainEventKinds(cfg: Config, binPath: string, archiveDir: string, verbose: bool,
                       settings: Settings, out: Outside, host: Host)
    ensures AllWorker(Main(cfg, binPath, archiveDir, verbose, settings, out, host).events)
  {
    var pre := Prelude(cfg, archiveDir, out, host);
    PreludeKinds(cfg, archiveDir, out, host);
    if pre.result.Ok? {
      var run := RunJob(pre.result.value, binPath, archiveDir, verbose, settings, out, host);
      RunJobKinds(pre.result.value, binPath, archiveDir, verbose, settings, out, host);
      AllWorkerAppend(pre.events, run.events);
    }
  }

  lemma PreludeKinds(cfg: Config, archiveDir: string, out: Outside, host: Host)
    ensures AllWorker(Prelude(cfg, archiveDir, out, host).events)
  {
    if "name" in cfg && cfg["name"].VStr? && WorkerLogPath(archiveDir, cfg).Ok? {
      var head := [MakeDirs(Join(archiveDir, cfg["name"].s)), SetupLog(WorkerLogPath(archiveDir, cfg).value)];
      assert AllWorker(head);
      if "targets" in cfg {
        ReimageKinds(cfg, host, out.reimage);
        AllWorkerAppend(head, ReimageMachines(cfg, WorkerVariant, host, out.reimage).events);
      }
    }
  }

  lemma ReimageKinds(cfg: Config, host: Host, reimage: (FakeContext, Value, Value) -> Result<Value>)
    ensures var r := ReimageMachines(cfg, WorkerVariant, host, reimage);
      forall k :: 0 <= k < |r.events| ==> r.events[k].Push? || r.events[k].Reimage?
  {
  }

  lemma RunJobKinds(cfg: Config, binPath: string, archiveDir: string, verbose: bool,
                    settings: Settings, out: Outside, host: Host)
    ensures AllWorker(RunJob(cfg, binPath, archiveDir, verbose, settings, out, host).events)
  {
    if "name" in cfg && cfg["name"].VStr? {
      if IsBoundary(cfg) {
        BoundaryKinds(cfg, binPath, archiveDir, settings, host);
      } else {
        TestRunKinds(cfg, binPath, verbose, settings, out, host);
      }
    }
  }

  lemma BoundaryKinds(cfg: Config, binPath: string, archiveDir: string, settings: Settings, host: Host)
    requires "name" in cfg && cfg["name"].VStr?
    ensures AllWorker(BoundaryRun(cfg, binPath, archiveDir, settings, host).events)
  {
    var deleted := if settings.resultsServer && "job_id" in cfg then [DeleteJobs(cfg["name"], cfg["job_id"])] else [];
    var made := MakeDirs(Join(archiveDir, host.munge(cfg["name"].s)));
    assert AllWorker(deleted);
    match ResultsArgs(cfg, binPath, archiveDir, settings, host)
    case Err(_) =>
      assert AllWorker([made]);
      AllWorkerAppend(deleted, [made]);
    case Ok(args) =>
      assert AllWorker([made, Spawn(args, true, None)]);
      AllWorkerAppend(deleted, [made, Spawn(args, true, None)]);
  }

  lemma TestRunKinds(cfg: Config, binPath: string, verbose: bool, settings: Settings, out: Outside, host: Host)
    ensures AllWorker(TestRun(cfg, binPath, verbose, settings, out, host).events)
  {
    var launched := Launch(cfg, binPath, verbose, settings, out, host);
    LaunchKinds(cfg, binPath, verbose, settings, out, host);
    if "archive_path" in cfg && cfg["archive_path"].VStr? {
      assert AllWorker([MakeDirs(cfg["archive_path"].s)]);
      AllWorkerAppend([MakeDirs(cfg["archive_path"].s)], launched.events);
    }
  }

  lemma LaunchKinds(cfg: Config, binPath: string, verbose: bool, settings: Settings, out: Outside, host: Host)
    ensures AllWorker(Launch(cfg, binPath, verbose, settings, out, host).events)
  {
    if "job_id" in cfg && "suite_path" in cfg {
      var spawn := ChildSpawn(cfg, binPath, verbose, cfg["suite_path"], out);
      if spawn.Ok? {
        var w := Supervise(MergeLegacy(cfg), settings, out, host);
        assert AllWorker(w.events);
        ChildSpawnIsWorker(cfg, binPath, verbose, cfg["suite_path"], out);
        AllWorkerAppend([spawn.value], w.events);
      }
    }
  }

  lemma ChildSpawnIsWorker(cfg: Config, binPath: string, verbose: bool, suitePath: Value, out: Outside)
    requires ChildSpawn(cfg, binPath, verbose, suitePath, out).Ok?
    ensures AllWorker([ChildSpawn(cfg, binPath, verbose, suitePath, out).value])
  {
  }
}
