/** The job supervisor: it reimages the job's machines, then either starts
    `teuthology-results` for a suite-boundary job or runs the job's
    `teuthology` process under the watchdog, and finally unlocks or nukes
    the machines it held. */
module Supervisor {
  import opened PyValues
  import opened Paths
  import opened Effects
  import opened JobConfig
  import opened Commands
  import opened Machines
  import opened Archive
  import opened Watchdog

  /** What the supervisor learns from the outside world while it runs, as
      values: the reimaging helper, the watchdog's clock and polls, the
      job's archive record and remotes for `transfer_archives`, and the job
      record, its status and its machines' lock state for
      `unlock_targets`. */
  datatype Outside = Outside(
    reimage: (FakeContext, Value, Value) -> Result<Value>,
    start: int,
    obs: seq<Observation>,
    record: Option<seq<Phase>>,
    remotes: seq<string>,
    pull: Puller,
    jobInfo: Config,
    status: Value,
    statuses: seq<MachineStatus>)

  /** How a supervisor run that did not raise ends: it returned, or the
      watchdog is still polling a child that has not exited within the
      observations given. */
  datatype Outcome = Returned | StillWatching

  predicate IsSpawn(e: Event) { e.Spawn? }
  predicate IsReimage(e: Event) { e.Reimage? }
  predicate IsDeleteJobs(e: Event) { e.DeleteJobs? }

  /** The effects a suite-boundary job may have. */
  predicate BoundaryEvent(e: Event) { e.DeleteJobs? || e.Spawn? || e.RemoveArchive? }

  /** The effects of the watchdog or of the plain wait. */
  predicate WatchEvent(e: Event) {
    e.Symlink? || e.Transfer? || e.Kill? || e.Push? || e.Wait?
  }

  /** The effects that may follow a test job's spawn. */
  predicate AfterSpawnEvent(e: Event) {
    WatchEvent(e) || e.Unlock? || e.Nuke?
  }

  /** An effect on the job's machines. */
  predicate MachineEvent(e: Event) { e.Reimage? || e.Unlock? || e.Nuke? }

  // ---------------------------------------------------------------------
  // Suite-boundary jobs

  /** The boundary branch of `run_job`: the job's results are deleted
      first when there is a results server. A failure of the delete is only
      logged, but the handler that logs it reads `job_id` again, so a missing
      `job_id` still raises. Then `teuthology-results` is started detached,
      which raises when a word of its command is not a string, and the job's
      own archive directory is removed. */
  function BoundaryRun(cfg: Config, binPath: string, archiveDir: string, settings: Settings, host: Host): (r: Traced<Outcome>)
    requires "name" in cfg
    ensures settings.resultsServer && "job_id" !in cfg ==> r == Traced([], Err(KeyError("job_id")))
    ensures var args := ResultsArgs(cfg, binPath, archiveDir, settings, host);
      var spawned := args.Ok? && ResultsWordsAreStr(cfg) && !(settings.resultsServer && "job_id" !in cfg);
      && (r.result.Ok? <==> spawned && "archive_path" in cfg && cfg["archive_path"].VStr?)
      && Count(r.events, IsSpawn) == (if spawned then 1 else 0)
      && (spawned ==> Spawn(args.value, true, None) in r.events)
    ensures (ResultsArgs(cfg, binPath, archiveDir, settings, host).Ok? && !ResultsWordsAreStr(cfg)
             && !(settings.resultsServer && "job_id" !in cfg)) ==> r.result == Err(TypeError(PopenError))
    ensures Count(r.events, IsDeleteJobs) == (if settings.resultsServer && "job_id" in cfg then 1 else 0)
    ensures forall k :: 0 <= k < |r.events| ==> BoundaryEvent(r.events[k])
    ensures r.result.Ok? ==> r.result.value == Returned && r.events[|r.events| - 1] == RemoveArchive(cfg["archive_path"].s)
  {
    if settings.resultsServer && "job_id" !in cfg then Traced([], Err(KeyError("job_id")))
    else
      var deleted := if settings.resultsServer then [DeleteJobs(cfg["name"], cfg["job_id"])] else [];
      match ResultsArgs(cfg, binPath, archiveDir, settings, host)
      case Err(e) => Traced(BoundaryTrace(deleted, None, []), Err(e))
      case Ok(args) =>
        if !Joinable(args) then Traced(BoundaryTrace(deleted, None, []), Err(TypeError(PopenError)))
        else
          var spawn := Spawn(args, true, None);
          match LookupStr(cfg, "archive_path")
          case Err(e) => Traced(BoundaryTrace(deleted, Some(spawn), []), Err(e))
          case Ok(archive) => Traced(BoundaryTrace(deleted, Some(spawn), [RemoveArchive(archive)]), Ok(Returned))
  }

  /** The shape of a boundary trace: the optional results-server delete,
      the spawn when the arguments were built, the archive removal last. */
  function BoundaryTrace(deleted: seq<Event>, spawn: Option<Event>, removed: seq<Event>): (e: seq<Event>)
    requires |deleted| <= 1 && (deleted != [] ==> deleted[0].DeleteJobs?)
    requires spawn.Some? ==> spawn.value.Spawn?
    requires |removed| <= 1 && (removed != [] ==> removed[0].RemoveArchive? && spawn.Some?)
    ensures e == deleted + (if spawn.Some? then [spawn.value] else []) + removed
    ensures
      && Count(e, IsSpawn) == (if spawn.Some? then 1 else 0)
      && Count(e, IsDeleteJobs) == |deleted|
      && (spawn.Some? ==> spawn.value in e)
      && (forall k :: 0 <= k < |e| ==> BoundaryEvent(e[k]))
      && (removed != [] ==> e[|e| - 1] == removed[0])
  {
    var mid := if spawn.Some? then [spawn.value] else [];
    var e := deleted + mid + removed;
    assert deleted != [] ==> deleted[1..] == [];
    assert mid != [] ==> mid[1..] == [];
    assert removed != [] ==> removed[1..] == [];
    CountAppend(deleted, mid, IsSpawn);
    CountAppend(deleted, mid, IsDeleteJobs);
    CountAppend(deleted + mid, removed, IsSpawn);
    CountAppend(deleted + mid, removed, IsDeleteJobs);
    assert spawn.Some? ==> e[|deleted|] == spawn.value;
    e
  }

  // ---------------------------------------------------------------------
  // Test jobs

  /** The supervisor's `transfer_archives`, bound to what the outside world
      reports for this job. */
  function TransferOf(out: Outside, host: Host): Transferer {
    (c: Config) => SupervisorTransfer(c, out.record, out.remotes, out.pull, host)
  }

  /** The child's run: under the watchdog when there is a results server,
      otherwise a plain wait for the child. */
  function Supervise(cfg: Config, settings: Settings, out: Outside, host: Host): (w: Watch)
    ensures settings.resultsServer ==> w == RunWithWatchdog(SupervisorVariant, cfg, settings, out.start, TransferOf(out, host), out.obs)
    ensures !settings.resultsServer ==> w == Watch([Wait], cfg, Finished)
    ensures forall k :: 0 <= k < |w.events| ==> WatchEvent(w.events[k])
  {
    if settings.resultsServer then
      RunWithWatchdogKinds(SupervisorVariant, cfg, settings, out.start, TransferOf(out, host), out.obs);
      RunWithWatchdog(SupervisorVariant, cfg, settings, out.start, TransferOf(out, host), out.obs)
    else Watch([Wait], cfg, Finished)
  }

  /** The unlock step after the child finished: only for a config that
      still lists targets, with the job record looked up by name and id. */
  function UnlockAfterRun(cfg: Config, out: Outside, host: Host): (r: Traced<Config>)
    ensures "targets" !in cfg ==> r == Traced([], Ok(cfg))
    ensures "targets" in cfg && "job_id" in cfg && "name" in cfg ==> r == UnlockTargets(cfg, out.jobInfo, out.status, out.statuses, host)
    ensures forall k :: 0 <= k < |r.events| ==> r.events[k].Unlock? || r.events[k].Nuke?
  {
    if "targets" !in cfg then Traced([], Ok(cfg))
    else if "name" !in cfg then Traced([], Err(KeyError("name")))
    else if "job_id" !in cfg then Traced([], Err(KeyError("job_id")))
    else
      var r := UnlockTargets(cfg, out.jobInfo, out.status, out.statuses, host);
      UnlockKinds(cfg, out, host);
      r
  }

  lemma UnlockKinds(cfg: Config, out: Outside, host: Host)
    ensures var r := UnlockTargets(cfg, out.jobInfo, out.status, out.statuses, host);
      forall k :: 0 <= k < |r.events| ==> r.events[k].Unlock? || r.events[k].Nuke?
  {
    var r := UnlockTargets(cfg, out.jobInfo, out.status, out.statuses, host);
    if r.result.Ok? && LockedHosts(out.statuses, host.shortname) != [] {
      forall k | 0 <= k < |r.events| ensures r.events[k].Unlock? || r.events[k].Nuke? {
        UnlockOrNuke(r.events, k);
      }
    } else if r.result.Err? && "targets" in out.jobInfo && LockedHosts(out.statuses, host.shortname) != [] {
      UnlockTargetsErrKinds(cfg, out, host);
    }
  }

  /** In a trace whose length is its unlocks plus its nukes, every event is
      one of the two. */
  lemma {:induction false} UnlockOrNuke(events: seq<Event>, k: nat)
    requires |events| == |UnlockedHosts(events)| + Count(events, IsNuke)
    requires k < |events|
    ensures events[k].Unlock? || events[k].Nuke?
  {
    BoundedKinds(events);
    if !events[k].Unlock? && !events[k].Nuke? {
      OtherEventShrinks(events, k);
      assert false;
    }
  }

  lemma {:induction false} BoundedKinds(events: seq<Event>)
    ensures |UnlockedHosts(events)| + Count(events, IsNuke) <= |events|
    decreases |events|
  {
    if events != [] {
      BoundedKinds(events[1..]);
    }
  }

  lemma {:induction false} OtherEventShrinks(events: seq<Event>, k: nat)
    requires k < |events| && !events[k].Unlock? && !events[k].Nuke?
    ensures |UnlockedHosts(events)| + Count(events, IsNuke) < |events|
    decreases |events|
  {
    if k == 0 {
      BoundedKinds(events[1..]);
    } else {
      OtherEventShrinks(events[1..], k - 1);
    }
  }

  lemma UnlockTargetsErrKinds(cfg: Config, out: Outside, host: Host)
    ensures var r := UnlockTargets(cfg, out.jobInfo, out.status, out.statuses, host);
      r.result.Err? ==> forall k :: 0 <= k < |r.events| ==> r.events[k].Unlock? || r.events[k].Nuke?
  {
    var locked := LockedHosts(out.statuses, host.shortname);
    if "targets" in out.jobInfo && locked != [] {
      var unlock := UnlockStep(cfg, out.jobInfo, out.status, locked, host);
      UnlockStepKinds(cfg, out.jobInfo, out.status, locked, host);
    }
  }

  lemma UnlockStepKinds(cfg: Config, jobInfo: Config, status: Value, locked: seq<string>, host: Host)
    requires locked != []
    ensures var r := UnlockStep(cfg, jobInfo, status, locked, host);
      forall k :: 0 <= k < |r.events| ==> r.events[k].Unlock?
  {
    var r := UnlockStep(cfg, jobInfo, status, locked, host);
    if r.result.Ok? {
      forall k | 0 <= k < |r.events| ensures r.events[k].Unlock? {
        UnlockOrNuke(r.events, k);
        UnlockStepHasNoNuke(cfg, jobInfo, status, locked, host);
        if r.events[k].Nuke? {
          CountPositive(r.events, IsNuke, k);
        }
      }
    }
  }

  lemma UnlockStepHasNoNuke(cfg: Config, jobInfo: Config, status: Value, locked: seq<string>, host: Host)
    requires locked != []
    ensures var r := UnlockStep(cfg, jobInfo, status, locked, host);
      r.result.Ok? ==> Count(r.events, IsNuke) == 0 && |r.events| == |UnlockedHosts(r.events)| + Count(r.events, IsNuke)
  {
  }

  /** The test branch of `run_job`: `job_id` is read for the log, the legacy
      nested config is merged, the `teuthology` child is started, supervised,
      and the machines it held are released once it finished. */
  function TestRun(cfg: Config, binPath: string, verbose: bool, settings: Settings, out: Outside, host: Host): (r: Traced<Outcome>)
    ensures "job_id" !in cfg ==> r == Traced([], Err(KeyError("job_id")))
    ensures "job_id" in cfg ==>
      var args := SupervisorExecArgs(MergeLegacy(cfg), binPath, verbose);
      var w := Supervise(MergeLegacy(cfg), settings, out, host);
      var u := UnlockAfterRun(w.config, out, host);
      && (args.Err? ==> r == Traced([], Err(args.error)))
      && (args.Ok? && !WordsAreStr(MergeLegacy(cfg)) ==> r == Traced([], Err(TypeError(JoinError))))
      && (args.Ok? && WordsAreStr(MergeLegacy(cfg)) ==>
            && r.events == [Spawn(args.value, false, None)] + w.events + (if w.state.Finished? then u.events else [])
            && (w.state.Raised? ==> r.result == Err(w.state.error))
            && (w.state.Polling? ==> r.result == Ok(StillWatching))
            && (w.state.Finished? ==> (r.result.Ok? <==> u.result.Ok?)))
  {
    if "job_id" !in cfg then Traced([], Err(KeyError("job_id")))
    else
      var merged := MergeLegacy(cfg);
      match SupervisorExecArgs(merged, binPath, verbose)
      case Err(e) => Traced([], Err(e))
      case Ok(args) =>
        if !Joinable(args) then Traced([], Err(TypeError(JoinError)))
        else
          var w := Supervise(merged, settings, out, host);
          var head := [Spawn(args, false, None)] + w.events;
          match w.state
          case Raised(e) => Traced(head, Err(e))
          case Polling => Traced(head, Ok(StillWatching))
          case Finished =>
            var u := UnlockAfterRun(w.config, out, host);
            Traced(head + u.events, if u.result.Ok? then Ok(Returned) else Err(u.result.error))
  }

  /** A test job starts its child first; everything after the spawn is the
      watchdog's or the wait's, then the unlock step's. */
  lemma TestRunLayout(cfg: Config, binPath: string, verbose: bool, settings: Settings, out: Outside, host: Host)
    requires "job_id" in cfg && SupervisorExecArgs(MergeLegacy(cfg), binPath, verbose).Ok? && WordsAreStr(MergeLegacy(cfg))
    ensures var r := TestRun(cfg, binPath, verbose, settings, out, host);
      var w := Supervise(MergeLegacy(cfg), settings, out, host);
      && |r.events| > |w.events|
      && r.events[0] == Spawn(SupervisorExecArgs(MergeLegacy(cfg), binPath, verbose).value, false, None)
      && r.events[1..|w.events| + 1] == w.events
      && (forall k :: 0 < k < |r.events| ==> AfterSpawnEvent(r.events[k]))
  {
    var r := TestRun(cfg, binPath, verbose, settings, out, host);
    var w := Supervise(MergeLegacy(cfg), settings, out, host);
    var u := UnlockAfterRun(w.config, out, host);
    var tail := if w.state.Finished? then u.events else [];
    assert r.events == [r.events[0]] + w.events + tail;
    assert r.events[1..|w.events| + 1] == w.events;
    forall k | 0 < k < |r.events| ensures AfterSpawnEvent(r.events[k]) {
      if k <= |w.events| {
        assert r.events[k] == w.events[k - 1];
      } else {
        assert r.events[k] == tail[k - 1 - |w.events|];
      }
    }
  }

  /** `run_job(job_config, teuth_bin_path, archive_dir, verbose)`. */
  function RunJob(cfg: Config, binPath: string, archiveDir: string, verbose: bool, settings: Settings,
                  out: Outside, host: Host): (r: Traced<Outcome>)
    ensures !("name" in cfg && cfg["name"].VStr?) ==> r.events == [] && r.result.Err?
    ensures "name" in cfg && cfg["name"].VStr? && IsBoundary(cfg) ==>
      r == BoundaryRun(cfg, binPath, archiveDir, settings, host)
    ensures "name" in cfg && cfg["name"].VStr? && !IsBoundary(cfg) ==>
      r == TestRun(cfg, binPath, verbose, settings, out, host)
  {
    match LookupStr(cfg, "name")
    case Err(e) => Traced([], Err(e))
    case Ok(name) =>
      if IsBoundary(cfg) then BoundaryRun(cfg, binPath, archiveDir, settings, host)
      else TestRun(cfg, binPath, verbose, settings, out, host)
  }

  /** `main(args)`: the log file first, then reimaging when the job lists
      targets, then `run_job`, whose SkipJob ends the supervisor normally. */
  function Main(cfg: Config, binPath: string, archiveDir: string, verbose: bool, settings: Settings,
                out: Outside, host: Host): (r: Traced<Outcome>)
    ensures SupervisorLogPath(cfg).Err? ==> r == Traced([], Err(SupervisorLogPath(cfg).error))
    ensures SupervisorLogPath(cfg).Ok? ==> |r.events| > 0 && r.events[0] == SetupLog(SupervisorLogPath(cfg).value)
    ensures r.result != Err(SkipJob) || ("targets" in cfg && ReimageMachines(cfg, SupervisorVariant, host, out.reimage).result == Err(SkipJob))
    ensures SupervisorLogPath(cfg).Ok? && "targets" !in cfg ==>
      r.events == [SetupLog(SupervisorLogPath(cfg).value)] + RunJob(cfg, binPath, archiveDir, verbose, settings, out, host).events
  {
    match SupervisorLogPath(cfg)
    case Err(e) => Traced([], Err(e))
    case Ok(logPath) =>
      if "targets" in cfg then
        var reimaged := ReimageMachines(cfg, SupervisorVariant, host, out.reimage);
        var head := [SetupLog(logPath)] + reimaged.events;
        match reimaged.result
        case Err(e) => Traced(head, Err(e))
        case Ok(c) =>
          var run := RunJob(c, binPath, archiveDir, verbose, settings, out, host);
          Traced(head + run.events, SkipJobEndsRun(run.result))
      else
        var run := RunJob(cfg, binPath, archiveDir, verbose, settings, out, host);
        Traced([SetupLog(logPath)] + run.events, SkipJobEndsRun(run.result))
  }

  /** `main` catches SkipJob from `run_job` and returns normally. */
  function SkipJobEndsRun(r: Result<Outcome>): Result<Outcome> {
    if r == Err(SkipJob) then Ok(Returned) else r
  }

  // ---------------------------------------------------------------------
  // Properties

  /** A suite-boundary job starts exactly one process, `teuthology-results`,
      detached; it is never watched, never unlocks or nukes, and leaves no
      archive directory behind. */
  lemma BoundaryJobIsNotWatched(cfg: Config, binPath: string, archiveDir: string, verbose: bool,
                                settings: Settings, out: Outside, host: Host)
    requires IsBoundary(cfg) && "name" in cfg && cfg["name"].VStr?
    ensures var r := RunJob(cfg, binPath, archiveDir, verbose, settings, out, host);
      && (forall k :: 0 <= k < |r.events| ==> BoundaryEvent(r.events[k]))
      && Count(r.events, IsHeartbeat) == 0 && Count(r.events, IsKill) == 0
      && Count(r.events, IsUnlock) == 0 && Count(r.events, IsNuke) == 0
      && Count(r.events, IsSpawn) <= 1
      && (forall k :: 0 <= k < |r.events| && r.events[k].Spawn? ==> r.events[k].detached)
      && (r.result.Ok? ==> r.events[|r.events| - 1] == RemoveArchive(cfg["archive_path"].s))
  {
    var r := RunJob(cfg, binPath, archiveDir, verbose, settings, out, host);
    BoundaryCounts(r.events);
    var args := ResultsArgs(cfg, binPath, archiveDir, settings, host);
    forall k | 0 <= k < |r.events| && r.events[k].Spawn? ensures r.events[k].detached {
      OnlySpawnIs(r.events, k, Spawn(args.value, true, None));
    }
  }

  lemma BoundaryCounts(events: seq<Event>)
    requires forall k :: 0 <= k < |events| ==> BoundaryEvent(events[k])
    ensures Count(events, IsHeartbeat) == 0 && Count(events, IsKill) == 0
    ensures Count(events, IsUnlock) == 0 && Count(events, IsNuke) == 0
  {
    CountNone(events, IsHeartbeat);
    CountNone(events, IsKill);
    CountNone(events, IsUnlock);
    CountNone(events, IsNuke);
  }

  /** In a trace with at most one spawn, a spawn at index `k` is any
      spawn known to be in it. */
  lemma {:induction false} OnlySpawnIs(events: seq<Event>, k: nat, s: Event)
    requires k < |events| && events[k].Spawn? && s.Spawn? && s in events
    requires Count(events, IsSpawn) <= 1
    ensures events[k] == s
  {
    var j :| 0 <= j < |events| && events[j] == s;
    if j != k {
      TwoSpawns(events, j, k);
      assert false;
    }
  }

  lemma {:induction false} TwoSpawns(events: seq<Event>, i: nat, j: nat)
    requires i < |events| && j < |events| && i != j && events[i].Spawn? && events[j].Spawn?
    ensures Count(events, IsSpawn) >= 2
    decreases |events|
  {
    if i == 0 {
      CountPositive(events[1..], IsSpawn, j - 1);
    } else if j == 0 {
      CountPositive(events[1..], IsSpawn, i - 1);
    } else {
      TwoSpawns(events[1..], i - 1, j - 1);
    }
  }

  /** Without a results server the child is simply waited for: the trace
      of a test job is its spawn, the wait, and the unlock step. */
  lemma WaitsWithoutResultsServer(cfg: Config, binPath: string, verbose: bool, settings: Settings,
                                  out: Outside, host: Host)
    requires !settings.resultsServer
    requires "job_id" in cfg && SupervisorExecArgs(MergeLegacy(cfg), binPath, verbose).Ok? && WordsAreStr(MergeLegacy(cfg))
    ensures var r := TestRun(cfg, binPath, verbose, settings, out, host);
      && r.events[..2] == [Spawn(SupervisorExecArgs(MergeLegacy(cfg), binPath, verbose).value, false, None), Wait]
      && Count(r.events, IsHeartbeat) == 0
  {
    var r := TestRun(cfg, binPath, verbose, settings, out, host);
    var spawn := Spawn(SupervisorExecArgs(MergeLegacy(cfg), binPath, verbose).value, false, None);
    var u := UnlockAfterRun(MergeLegacy(cfg), out, host);
    assert r.events == [spawn] + [Wait] + u.events;
    WaitThenUnlock(spawn, u.events);
  }

  lemma WaitThenUnlock(spawn: Event, unlock: seq<Event>)
    requires spawn.Spawn?
    requires forall k :: 0 <= k < |unlock| ==> unlock[k].Unlock? || unlock[k].Nuke?
    ensures var e := [spawn] + [Wait] + unlock;
      e[..2] == [spawn, Wait] && Count(e, IsHeartbeat) == 0
  {
    var e := [spawn] + [Wait] + unlock;
    CountNone(e, IsHeartbeat);
  }

  /** Under a results server the watchdog's trace follows the spawn
      unchanged, with one heartbeat per pass while the child ran, one kill
      per overdue pass, and the `dead` push last when the child exited. */
  lemma WatchedRun(cfg: Config, binPath: string, verbose: bool, settings: Settings, out: Outside, host: Host)
    requires settings.resultsServer
    requires "job_id" in cfg && SupervisorExecArgs(MergeLegacy(cfg), binPath, verbose).Ok? && WordsAreStr(MergeLegacy(cfg))
    ensures var r := TestRun(cfg, binPath, verbose, settings, out, host);
      var w := RunWithWatchdog(SupervisorVariant, MergeLegacy(cfg), settings, out.start, TransferOf(out, host), out.obs);
      && r.events[1..|w.events| + 1] == w.events
      && WatchdogFacts(SupervisorVariant, settings, out.start, out.obs, w)
  {
    WatchdogTrace(SupervisorVariant, MergeLegacy(cfg), settings, out.start, TransferOf(out, host), out.obs);
  }

  /** A test job whose merged config lists no targets has no effect on
      machines. */
  lemma TestRunLeavesMachines(cfg: Config, binPath: string, verbose: bool, settings: Settings,
                              out: Outside, host: Host)
    requires "targets" !in MergeLegacy(cfg)
    ensures var r := TestRun(cfg, binPath, verbose, settings, out, host);
      forall k :: 0 <= k < |r.events| ==> !MachineEvent(r.events[k])
  {
    var args := SupervisorExecArgs(MergeLegacy(cfg), binPath, verbose);
    if "job_id" in cfg && args.Ok? && WordsAreStr(MergeLegacy(cfg)) {
      var w := Supervise(MergeLegacy(cfg), settings, out, host);
      WatchdogKeepsTargetsOut(MergeLegacy(cfg), settings, out, host);
      NoUnlockWithoutTargets(w.config, out, host);
      TestRunWithoutUnlock(cfg, binPath, verbose, settings, out, host);
      PrefixedWatch(TestRun(cfg, binPath, verbose, settings, out, host).events, Spawn(args.value, false, None), w.events);
    }
  }

  lemma NoUnlockWithoutTargets(cfg: Config, out: Outside, host: Host)
    requires "targets" !in cfg
    ensures UnlockAfterRun(cfg, out, host).events == []
  {
  }

  lemma TestRunWithoutUnlock(cfg: Config, binPath: string, verbose: bool, settings: Settings,
                             out: Outside, host: Host)
    requires "job_id" in cfg && SupervisorExecArgs(MergeLegacy(cfg), binPath, verbose).Ok? && WordsAreStr(MergeLegacy(cfg))
    requires UnlockAfterRun(Supervise(MergeLegacy(cfg), settings, out, host).config, out, host).events == []
    ensures TestRun(cfg, binPath, verbose, settings, out, host).events
      == [Spawn(SupervisorExecArgs(MergeLegacy(cfg), binPath, verbose).value, false, None)]
         + Supervise(MergeLegacy(cfg), settings, out, host).events
  {
  }

  lemma PrefixedWatch(events: seq<Event>, spawn: Event, watched: seq<Event>)
    requires events == [spawn] + watched && spawn.Spawn?
    requires forall k :: 0 <= k < |watched| ==> WatchEvent(watched[k])
    ensures forall k :: 0 <= k < |events| ==> !MachineEvent(events[k])
  {
    forall k | 0 <= k < |events| ensures !MachineEvent(events[k]) {
      if k > 0 { assert events[k] == watched[k - 1]; }
    }
  }

  /** Machines are only touched for a job that lists targets, either at
      its top level or inside its legacy nested config: otherwise the
      supervisor never reimages, unlocks or nukes. */
  lemma NoTargetsNoMachines(cfg: Config, binPath: string, archiveDir: string, verbose: bool,
                            settings: Settings, out: Outside, host: Host)
    requires "targets" !in cfg && "targets" !in LegacyEntries(cfg)
    ensures var r := Main(cfg, binPath, archiveDir, verbose, settings, out, host);
      Count(r.events, IsReimage) == 0 && Count(r.events, IsUnlock) == 0 && Count(r.events, IsNuke) == 0
  {
    match SupervisorLogPath(cfg)
    case Err(_) =>
      MachineFreeCounts([]);
    case Ok(logPath) =>
      RunJobLeavesMachines(cfg, binPath, archiveDir, verbose, settings, out, host);
      MachineFreeAfterLog(logPath, RunJob(cfg, binPath, archiveDir, verbose, settings, out, host).events);
  }

  lemma MachineFreeAfterLog(logPath: string, events: seq<Event>)
    requires forall k :: 0 <= k < |events| ==> !MachineEvent(events[k])
    ensures var all := [SetupLog(logPath)] + events;
      Count(all, IsReimage) == 0 && Count(all, IsUnlock) == 0 && Count(all, IsNuke) == 0
  {
    var all := [SetupLog(logPath)] + events;
    forall k | 0 <= k < |all| ensures !MachineEvent(all[k]) {
      if k > 0 { assert all[k] == events[k - 1]; }
    }
    MachineFreeCounts(all);
  }

  lemma RunJobLeavesMachines(cfg: Config, binPath: string, archiveDir: string, verbose: bool,
                             settings: Settings, out: Outside, host: Host)
    requires "targets" !in cfg && "targets" !in LegacyEntries(cfg)
    ensures var r := RunJob(cfg, binPath, archiveDir, verbose, settings, out, host);
      forall k :: 0 <= k < |r.events| ==> !MachineEvent(r.events[k])
  {
    if "name" in cfg && cfg["name"].VStr? && !IsBoundary(cfg) {
      TestRunLeavesMachines(cfg, binPath, verbose, settings, out, host);
    }
  }

  lemma MachineFreeCounts(events: seq<Event>)
    requires forall k :: 0 <= k < |events| ==> !MachineEvent(events[k])
    ensures Count(events, IsReimage) == 0 && Count(events, IsUnlock) == 0 && Count(events, IsNuke) == 0
  {
    CountNone(events, IsReimage);
    CountNone(events, IsUnlock);
    CountNone(events, IsNuke);
  }

  /** The watchdog only changes the config through the fake context, which
      keeps its keys. */
  lemma WatchdogKeepsTargetsOut(cfg: Config, settings: Settings, out: Outside, host: Host)
    ensures Supervise(cfg, settings, out, host).config.Keys == cfg.Keys
  {
    if settings.resultsServer {
      var transfer := TransferOf(out, host);
      forall c ensures transfer(c).result.Ok? ==> transfer(c).result.value.Keys == c.Keys {
        assert transfer(c) == SupervisorTransfer(c, out.record, out.remotes, out.pull, host);
      }
      RunWithWatchdogKeepsKeys(SupervisorVariant, cfg, settings, out.start, transfer, out.obs);
    }
  }
}
