/** The dispatcher: its restart and stop sentinels, `prep_job` with its
    error-to-`dead` path, the hand-over of one reserved job to a worker
    process, and the main loop over queue rounds. */
module Dispatcher {
  import opened PyValues
  import opened Paths
  import opened Effects
  import opened JobConfig
  import opened Commands
  import opened Machines

  // ---------------------------------------------------------------------
  // Sentinels

  /** `sentinel(path)`: the file's modification time (None when it does not
      exist) is strictly later than the dispatcher's start. Times are in
      microseconds. */
  predicate Sentinel(mtime: Option<int>, start: int) {
    mtime.Some? && mtime.value > start
  }

  datatype Control = RestartNow | StopNow | Proceed

  /** The sentinel checks at the top of each round: restart first. */
  function SentinelControl(restartMtime: Option<int>, stopMtime: Option<int>, start: int): (c: Control)
    ensures c == RestartNow <==> Sentinel(restartMtime, start)
    ensures c == StopNow <==> !Sentinel(restartMtime, start) && Sentinel(stopMtime, start)
    ensures c == Proceed <==> !Sentinel(restartMtime, start) && !Sentinel(stopMtime, start)
  {
    if Sentinel(restartMtime, start) then RestartNow
    else if Sentinel(stopMtime, start) then StopNow
    else Proceed
  }

  /** A missing sentinel file, or one not touched since the dispatcher
      started, requests nothing; touching it later does. */
  lemma SentinelFreshness(start: int, mtime: int)
    ensures !Sentinel(None, start)
    ensures !Sentinel(Some(start), start)
    ensures Sentinel(Some(mtime), start) <==> start < mtime
    ensures SentinelControl(Some(mtime), Some(mtime), start) == (if start < mtime then RestartNow else Proceed)
  {
  }

  /** `os.path.join(log_dir, 'dispatcher.{tube}.{pid}')`. */
  function DispatcherLogPath(logDir: string, tube: string, pid: nat): (p: string)
    ensures SimpleName(tube) ==> Basename(p) == "dispatcher." + tube + "." + IntToDecimal(pid)
  {
    var leaf := "dispatcher." + tube + "." + IntToDecimal(pid);
    LogLeafIsSimple(tube, pid);
    JoinNameFacts(logDir, leaf);
    Join(logDir, leaf)
  }

  lemma LogLeafIsSimple(tube: string, pid: nat)
    ensures SimpleName(tube) ==> SimpleName("dispatcher." + tube + "." + IntToDecimal(pid))
  {
    var digits := IntToDecimal(pid);
    assert AllDigits(digits);
    var leaf := "dispatcher." + tube + "." + digits;
    if SimpleName(tube) {
      forall k | 0 <= k < |leaf| ensures leaf[k] != '/' {
        if k >= |leaf| - |digits| { assert leaf[k] == digits[k - (|leaf| - |digits|)]; }
      }
    }
  }

  // ---------------------------------------------------------------------
  // prep_job

  /** What `fetch_teuthology` and `fetch_qa_suite` do: a checkout path, or
      one of the two errors `prep_job` turns into a `dead` job. */
  datatype Fetch = Fetched(path: string) | BranchNotFound(message: string) | FetchGaveUp(message: string)

  /** The repository fetchers, as uninterpreted functions: the teuthology
      checkout by branch, and the suite checkout by the job's suite
      repository override (None when the job names none) and branch. */
  datatype Repos = Repos(teuthology: Value -> Fetch, qaSuite: (Option<Value>, Value) -> Fetch)

  const DerivedKeys := {"worker_log", "archive_path", "teuthology_branch"}

  /** The part of `prep_job` before any fetch: the job's archive path, its
      worker log and its teuthology branch, defaulted to master and stored
      back. */
  function PrepFields(cfg: Config, logFilePath: string, archiveDir: string, host: Host): (r: Result<Config>)
    ensures r.Ok? <==> "job_id" in cfg && "name" in cfg && cfg["name"].VStr? && Str(cfg["job_id"]).Ok?
    ensures r.Ok? ==>
      && r.value.Keys == cfg.Keys + DerivedKeys
      && r.value["worker_log"] == VStr(logFilePath)
      && r.value["archive_path"] == VStr(JobArchivePath(archiveDir, host.munge(cfg["name"].s), Str(cfg["job_id"]).value))
      && r.value["teuthology_branch"] == TeuthologyBranch(cfg)
      && (forall k :: k in cfg && k !in DerivedKeys ==> r.value[k] == cfg[k])
  {
    var jobId :- Lookup(cfg, "job_id");
    var name :- LookupStr(cfg, "name");
    var safeName := host.munge(name);
    var withLog := cfg["worker_log" := VStr(logFilePath)];
    var idText :- Str(jobId);
    var withArchive := withLog["archive_path" := VStr(JobArchivePath(archiveDir, safeName, idText))];
    var branch := Get(withArchive, "teuthology_branch", VStr("master"));
    Ok(withArchive["teuthology_branch" := branch])
  }

  /** The teuthology checkout: the configured path, or a fetch of the job's
      branch. */
  function TeuthologyFetch(cfg: Config, settings: Settings, repos: Repos): Fetch
    requires "teuthology_branch" in cfg
  {
    match settings.teuthologyPath
    case Some(path) => Fetched(path)
    case None => repos.teuthology(cfg["teuthology_branch"])
  }

  /** The suite checkout for the job's suite branch and repository. */
  function SuiteFetch(cfg: Config, repos: Repos): Fetch {
    repos.qaSuite(SuiteRepoOverride(cfg), SuiteBranch(cfg))
  }

  /** The job's `suite_repo` when it is truthy; it then replaces the
      configured suite repository. */
  function SuiteRepoOverride(cfg: Config): Option<Value> {
    if Truthy(Get(cfg, "suite_repo", VNone)) then Some(cfg["suite_repo"]) else None
  }

  /** The fields of the push that marks a job `dead`. */
  function DeadFields(message: string): Config {
    map[StatusKey := VStr("dead"), "failure_reason" := VStr(message)]
  }

  predicate IsPush(e: Event) { e.Push? }

  predicate IsSpawn(e: Event) { e.Spawn? }

  /** The only events `prep_job` produces: a suite repository switch and a
      job-info push. */
  predicate IsPrepEvent(e: Event) { e.Push? || e.SetSuiteRepo? }

  /** `prep_job` returns the job config and the teuthology `bin` path. */
  datatype Prepared = Prepared(config: Config, binPath: string)

  /** The suite repository switch, present exactly when the job names a
      truthy `suite_repo`. */
  function RepoEvents(c: Config): (e: seq<Event>)
    ensures |e| == (if SuiteRepoOverride(c).Some? then 1 else 0)
    ensures forall k :: 0 <= k < |e| ==> e[k].SetSuiteRepo? && e[k].url == c["suite_repo"]
  {
    match SuiteRepoOverride(c)
    case Some(url) => [SetSuiteRepo(url)]
    case None => []
  }

  /** The end of `prep_job` once both checkouts exist: the suite path is
      the normalised join of the suite checkout and the job's relative
      path, and the teuthology checkout must hold a `virtualenv/bin`
      directory. */
  function Checkout(c: Config, teuthPath: string, suitePath: string, host: Host): (r: Result<Prepared>)
    ensures var bin := Join(Join(teuthPath, "virtualenv"), "bin");
      && (r.Ok? <==> Get(c, "suite_relpath", VStr("")).VStr? && host.isDir(bin))
      && (r.Ok? ==>
            && r.value.binPath == bin
            && Basename(bin) == "bin"
            && r.value.config.Keys == c.Keys + {"suite_path"}
            && r.value.config["suite_path"] == VStr(host.normpath(Join(suitePath, Get(c, "suite_relpath", VStr("")).s)))
            && (forall k :: k in c && k != "suite_path" ==> r.value.config[k] == c[k]))
      && (r.Err? ==> r.error != SkipJob)
  {
    var relpath := Get(c, "suite_relpath", VStr(""));
    if !relpath.VStr? then Err(TypeError("suite_relpath"))
    else
      var binPath := Join(Join(teuthPath, "virtualenv"), "bin");
      JoinNameFacts(Join(teuthPath, "virtualenv"), "bin");
      if !host.isDir(binPath) then Err(RuntimeError("teuthology branch at " + binPath + " not bootstrapped"))
      else Ok(Prepared(WithSuitePath(c, VStr(host.normpath(Join(suitePath, relpath.s)))), binPath))
  }

  function WithSuitePath(c: Config, v: Value): (r: Config)
    ensures r.Keys == c.Keys + {"suite_path"} && r["suite_path"] == v
    ensures forall k :: k in c && k != "suite_path" ==> r[k] == c[k]
  {
    c["suite_path" := v]
  }

  /** The fetching part of `prep_job` for given fetch outcomes: either
      failure is pushed as `dead`, with the job's config and the failure
      message, and turned into SkipJob. */
  function PrepFetched(c: Config, teuth: Fetch, suite: Fetch, host: Host): (r: Traced<Prepared>)
    ensures r.result == Err(SkipJob) <==> !teuth.Fetched? || !suite.Fetched?
    ensures !teuth.Fetched? ==> r.events == [Push(c, DeadFields(teuth.message))]
    ensures teuth.Fetched? && !suite.Fetched? ==> r.events == RepoEvents(c) + [Push(c, DeadFields(suite.message))]
    ensures teuth.Fetched? && suite.Fetched? ==>
      r == Traced(RepoEvents(c), Checkout(c, teuth.path, suite.path, host))
    ensures forall k :: 0 <= k < |r.events| ==> IsPrepEvent(r.events[k])
    ensures r.result == Err(SkipJob) ==> |r.events| > 0 && IsStatusPush(r.events[|r.events| - 1], "dead")
  {
    if !teuth.Fetched? then Traced([Push(c, DeadFields(teuth.message))], Err(SkipJob))
    else if !suite.Fetched? then Traced(RepoEvents(c) + [Push(c, DeadFields(suite.message))], Err(SkipJob))
    else Traced(RepoEvents(c), Checkout(c, teuth.path, suite.path, host))
  }

  /** The job is marked `dead` once when a checkout fails and not at all
      otherwise, and no process is started while preparing. */
  lemma PrepFetchedCounts(c: Config, teuth: Fetch, suite: Fetch, host: Host)
    ensures var r := PrepFetched(c, teuth, suite, host);
      && Count(r.events, IsPush) == (if r.result == Err(SkipJob) then 1 else 0)
      && Count(r.events, IsSpawn) == 0
  {
    var r := PrepFetched(c, teuth, suite, host);
    var repo := RepoEvents(c);
    CountNone(r.events, IsSpawn);
    CountNone(repo, IsPush);
    if r.result == Err(SkipJob) {
      var dead := r.events[|r.events| - 1];
      assert [dead][1..] == [];
      if teuth.Fetched? {
        assert r.events == repo + [dead];
        CountAppend(repo, [dead], IsPush);
      } else {
        assert r.events == [dead];
      }
    } else {
      assert r.events == repo;
    }
  }

  /** `prep_job(job_config, log_file_path, archive_dir)`. */
  function PrepJob(cfg: Config, logFilePath: string, archiveDir: string, settings: Settings,
                   repos: Repos, host: Host): (r: Traced<Prepared>)
    ensures PrepFields(cfg, logFilePath, archiveDir, host).Err? ==>
      r == Traced([], Err(PrepFields(cfg, logFilePath, archiveDir, host).error))
    ensures PrepFields(cfg, logFilePath, archiveDir, host).Ok? ==>
      var c := PrepFields(cfg, logFilePath, archiveDir, host).value;
      r == PrepFetched(c, TeuthologyFetch(c, settings, repos), SuiteFetch(c, repos), host)
    ensures forall k :: 0 <= k < |r.events| ==> IsPrepEvent(r.events[k])
    ensures r.result == Err(SkipJob) ==> |r.events| > 0 && IsStatusPush(r.events[|r.events| - 1], "dead")
  {
    match PrepFields(cfg, logFilePath, archiveDir, host)
    case Err(e) => Traced([], Err(e))
    case Ok(c) => PrepFetched(c, TeuthologyFetch(c, settings, repos), SuiteFetch(c, repos), host)
  }

  /** `prep_job` marks the job `dead` exactly when it raises SkipJob, and
      starts no process. */
  lemma PrepJobCounts(cfg: Config, logFilePath: string, archiveDir: string, settings: Settings,
                      repos: Repos, host: Host)
    ensures var r := PrepJob(cfg, logFilePath, archiveDir, settings, repos, host);
      && Count(r.events, IsPush) == (if r.result == Err(SkipJob) then 1 else 0)
      && Count(r.events, IsSpawn) == 0
  {
    var fields := PrepFields(cfg, logFilePath, archiveDir, host);
    if fields.Ok? {
      var c := fields.value;
      PrepFetchedCounts(c, TeuthologyFetch(c, settings, repos), SuiteFetch(c, repos), host);
    }
  }

  // ---------------------------------------------------------------------
  // One reserved job

  /** A job reserved from the queue: its id and its parsed body. */
  datatype Reserved = Reserved(jid: nat, body: Config)

  /** The job config the dispatcher works on: the body with `job_id` set to
      the queue id as a string. */
  function JobConfigOf(job: Reserved): (cfg: Config)
    ensures cfg.Keys == job.body.Keys + {"job_id"}
    ensures cfg["job_id"].VStr? && ParseInt(cfg["job_id"].s) == Some(job.jid as int)
    ensures forall k :: k in job.body && k != "job_id" ==> cfg[k] == job.body[k]
  {
    IntRoundTrip(job.jid);
    job.body["job_id" := VStr(IntToDecimal(job.jid))]
  }

  /** Whether the job asks this dispatcher to stop after it. */
  predicate StopRequested(job: Reserved) {
    Truthy(Get(JobConfigOf(job), "stop_worker", VNone))
  }

  /** Everything one dispatch needs besides the job. */
  datatype Env = Env(
    start: int,                 // the dispatcher's start time
    logFilePath: string,        // its own log file, recorded as the job's worker log
    archiveDir: string,
    repos: Repos,
    host: Host,
    lockHelper: (FakeContext, nat, Value) -> Config)

  datatype Dispatched = Dispatched(config: Config, binPath: string)

  /** The part of a dispatch after `prep_job` succeeded: lock the job's
      machines when it needs them, start the worker and delete the job from
      the queue. */
  function LaunchWorker(job: Reserved, p: Prepared, env: Env, fd: nat): (r: Traced<Dispatched>)
    ensures r.result.Err? ==> r.events == []
    ensures r.result.Ok? ==>
      && r.result.value.binPath == p.binPath
      && 2 <= |r.events| <= 3
      && r.events[|r.events| - 2] == Spawn(WorkerLaunchArgs(p.binPath, env.archiveDir, fd), false, None)
      && r.events[|r.events| - 1] == DeleteQueued(job.jid)
      && (|r.events| == 3 ==> r.events[0].Lock?)
  {
    var locked := if NeedsLock(p.config) then LockMachines(p.config, env.host, env.lockHelper)
                  else Traced([], Ok(p.config));
    match locked.result
    case Err(e) => Traced([], Err(e))
    case Ok(c) =>
      var tail := [Spawn(WorkerLaunchArgs(p.binPath, env.archiveDir, fd), false, None), DeleteQueued(job.jid)];
      Traced(locked.events + tail, Ok(Dispatched(c, p.binPath)))
  }

  /** A launched job starts exactly one process, its worker. */
  lemma LaunchSpawnsOnce(job: Reserved, p: Prepared, env: Env, fd: nat)
    ensures var r := LaunchWorker(job, p, env, fd);
      Count(r.events, IsSpawn) == (if r.result.Ok? then 1 else 0)
  {
    var r := LaunchWorker(job, p, env, fd);
    if r.result.Ok? {
      SpawnThenDelete(r.events);
    }
  }

  lemma SpawnThenDelete(e: seq<Event>)
    requires 2 <= |e| <= 3 && e[|e| - 2].Spawn? && e[|e| - 1].DeleteQueued?
    requires |e| == 3 ==> e[0].Lock?
    ensures Count(e, IsSpawn) == 1
  {
    var n := |e|;
    var head := e[..n - 2];
    var tail := e[n - 2..];
    assert e == head + tail;
    assert tail[1..][1..] == [];
    CountNone(head, IsSpawn);
    CountAppend(head, tail, IsSpawn);
  }

  lemma BuriedNotDeleted(jid: nat, events: seq<Event>)
    requires forall k :: 0 <= k < |events| ==> IsPrepEvent(events[k])
    ensures DeleteQueued(jid) !in [Bury(jid)] + events
  {
    var all := [Bury(jid)] + events;
    forall k | 0 <= k < |all| ensures all[k] != DeleteQueued(jid) {
      if k > 0 {
        assert all[k] == events[k - 1];
        assert IsPrepEvent(events[k - 1]);
      }
    }
  }

  /** The body of the main loop for a reserved job: bury it, prepare it,
      lock its machines when it needs them, start a worker for it and delete
      it from the queue. `fd` is the descriptor of the temporary file that
      carries the config to the worker. */
  function DispatchJob(job: Reserved, env: Env, settings: Settings, fd: nat): (r: Traced<Dispatched>)
    ensures |r.events| > 0 && r.events[0] == Bury(job.jid)
    ensures var prep := PrepJob(JobConfigOf(job), env.logFilePath, env.archiveDir, settings, env.repos, env.host);
      && (r.result.Err? ==> r.events == [Bury(job.jid)] + prep.events)
      && (prep.result.Err? ==> r.result == Err(prep.result.error))
      && (r.result.Ok? ==> prep.result.Ok? && r.result.value.binPath == prep.result.value.binPath)
    ensures r.result.Ok? ==>
      && |r.events| >= 3
      && r.events[|r.events| - 2] == Spawn(WorkerLaunchArgs(r.result.value.binPath, env.archiveDir, fd), false, None)
      && r.events[|r.events| - 1] == DeleteQueued(job.jid)
  {
    var prep := PrepJob(JobConfigOf(job), env.logFilePath, env.archiveDir, settings, env.repos, env.host);
    var head := [Bury(job.jid)] + prep.events;
    match prep.result
    case Err(e) => Traced(head, Err(e))
    case Ok(p) =>
      var launched := LaunchWorker(job, p, env, fd);
      if launched.result.Err? then Traced(head, launched.result)
      else
        TailOfAppend(head, launched.events);
        Traced(head + launched.events, launched.result)
  }

  /** Exactly one worker is started for a dispatched job, and none for a
      job that fails before that. */
  lemma {:induction false} DispatchSpawnsOnce(job: Reserved, env: Env, settings: Settings, fd: nat)
    ensures var r := DispatchJob(job, env, settings, fd);
      Count(r.events, IsSpawn) == (if r.result.Ok? then 1 else 0)
  {
    var r := DispatchJob(job, env, settings, fd);
    var prep := PrepJob(JobConfigOf(job), env.logFilePath, env.archiveDir, settings, env.repos, env.host);
    PrepJobCounts(JobConfigOf(job), env.logFilePath, env.archiveDir, settings, env.repos, env.host);
    if r.result.Ok? {
      var launched := LaunchWorker(job, prep.result.value, env, fd);
      LaunchSpawnsOnce(job, prep.result.value, env, fd);
      SpawnsAfterBury(job.jid, prep.events, launched.events);
    } else {
      SpawnsAfterBury(job.jid, prep.events, []);
    }
  }

  lemma SpawnsAfterBury(jid: nat, prep: seq<Event>, launched: seq<Event>)
    requires Count(prep, IsSpawn) == 0
    ensures Count([Bury(jid)] + prep + launched, IsSpawn) == Count(launched, IsSpawn)
  {
    var head := [Bury(jid)] + prep;
    assert [Bury(jid)][1..] == [];
    CountAppend([Bury(jid)], prep, IsSpawn);
    CountAppend(head, launched, IsSpawn);
  }

  /** A job that fails before its worker starts stays buried: it is never
      deleted from the queue. */
  lemma FailedJobStaysBuried(job: Reserved, env: Env, settings: Settings, fd: nat)
    ensures var r := DispatchJob(job, env, settings, fd);
      r.result.Err? ==> r.events[0] == Bury(job.jid) && DeleteQueued(job.jid) !in r.events
  {
    var prep := PrepJob(JobConfigOf(job), env.logFilePath, env.archiveDir, settings, env.repos, env.host);
    BuriedNotDeleted(job.jid, prep.events);
  }

  /** The worker started for a job is a verbose `teuthology-worker` that
      reads back the `bin` path, the archive directory and the descriptor,
      and the job keeps its queue id as its `job_id` string. */
  lemma DispatchedWorker(job: Reserved, env: Env, settings: Settings, fd: nat)
    ensures var r := DispatchJob(job, env, settings, fd);
      r.result.Ok? ==>
        var spawn := r.events[|r.events| - 2];
        && ParseWorkerCli(spawn.args) == Some(WorkerCli(true, r.result.value.binPath, env.archiveDir, fd))
        && Basename(r.result.value.binPath) == "bin"
    ensures ParseInt(JobConfigOf(job)["job_id"].s) == Some(job.jid as int)
  {
    var r := DispatchJob(job, env, settings, fd);
    if r.result.Ok? {
      WorkerLaunchRoundTrip(r.result.value.binPath, env.archiveDir, fd);
    }
  }

  // ---------------------------------------------------------------------
  // The main loop

  /** One pass of the main loop: the two sentinel readings, the settings
      `load_config` reloads, the job `reserve` returned (None on timeout)
      and the descriptor its temporary file gets. */
  datatype Round = Round(restartMtime: Option<int>, stopMtime: Option<int>, settings: Settings,
                         job: Option<Reserved>, fd: nat)

  /** How the loop ends: restarted in place, stopped by the stop sentinel,
      ended by a job's `stop_worker`, crashed by an exception, or still
      waiting when the rounds run out. */
  datatype Ending = Restarted | Stopped | WorkerStopped | Crashed(error: Error) | Waiting

  datatype Run = Run(events: seq<Event>, ending: Ending)

  function RoundControl(env: Env, round: Round): Control {
    SentinelControl(round.restartMtime, round.stopMtime, env.start)
  }

  function DispatchRound(env: Env, round: Round): Traced<Dispatched>
    requires round.job.Some?
  {
    DispatchJob(round.job.value, env, round.settings, round.fd)
  }

  /** The loop over rounds. `skipping` selects what happens when
      `prep_job` raises SkipJob: the source lets it end the dispatcher
      (false); skipping the job and carrying on is the corrected behaviour
      (true). */
  function Rounds(env: Env, rounds: seq<Round>, skipping: bool): (r: Run)
    ensures skipping ==> r.ending != Crashed(SkipJob)
    decreases |rounds|
  {
    if rounds == [] then Run([], Waiting)
    else
      var round := rounds[0];
      match RoundControl(env, round)
      case RestartNow => Run([Restart], Restarted)
      case StopNow => Run([Stop], Stopped)
      case Proceed =>
        if round.job.None? then Rounds(env, rounds[1..], skipping)
        else
          AfterDispatch(DispatchRound(env, round), StopRequested(round.job.value), skipping,
                        Rounds(env, rounds[1..], skipping))
  }

  /** What follows a dispatch: the exception propagates unless it is a
      skipped SkipJob, a `stop_worker` job ends the loop, and otherwise the
      remaining rounds run. */
  function AfterDispatch(d: Traced<Dispatched>, stop: bool, skipping: bool, rest: Run): (r: Run)
    ensures r.ending == rest.ending || r.ending == WorkerStopped
         || (d.result.Err? && r.ending == Crashed(d.result.error) && !(skipping && d.result.error == SkipJob))
  {
    if !(d.result.Ok? || (skipping && d.result.error == SkipJob)) then Run(d.events, Crashed(d.result.error))
    else if stop then Run(d.events, WorkerStopped)
    else Run(d.events + rest.events, rest.ending)
  }

  predicate EndsRestarted(r: Run) {
    r.ending.Restarted? <==> |r.events| > 0 && r.events[|r.events| - 1] == Restart
  }

  predicate EndsStopped(r: Run) {
    r.ending.Stopped? <==> |r.events| > 0 && r.events[|r.events| - 1] == Stop
  }

  lemma AfterDispatchEndings(d: Traced<Dispatched>, stop: bool, skipping: bool, rest: Run)
    requires |d.events| > 0 && d.events[|d.events| - 1] != Restart && d.events[|d.events| - 1] != Stop
    requires EndsRestarted(rest) && EndsStopped(rest)
    ensures var r := AfterDispatch(d, stop, skipping, rest); EndsRestarted(r) && EndsStopped(r)
  {
    var all := d.events + rest.events;
    if rest.events == [] {
      assert all[|all| - 1] == d.events[|d.events| - 1];
    } else {
      assert all[|all| - 1] == rest.events[|rest.events| - 1];
    }
  }

  /** The dispatcher ends by restarting exactly when its last action was the
      restart, and by stopping exactly when its last action was the stop. */
  lemma {:induction false} RoundsEndings(env: Env, rounds: seq<Round>, skipping: bool)
    ensures var r := Rounds(env, rounds, skipping); EndsRestarted(r) && EndsStopped(r)
    decreases |rounds|
  {
    if rounds != [] && RoundControl(env, rounds[0]) == Proceed {
      var round := rounds[0];
      RoundsEndings(env, rounds[1..], skipping);
      if round.job.Some? {
        DispatchEndsWithoutControl(env, round);
        AfterDispatchEndings(DispatchRound(env, round), StopRequested(round.job.value), skipping,
                             Rounds(env, rounds[1..], skipping));
      }
    }
  }

  /** A dispatch never ends with a restart or stop of the dispatcher. */
  lemma DispatchEndsWithoutControl(env: Env, round: Round)
    requires round.job.Some?
    ensures var d := DispatchRound(env, round);
      |d.events| > 0 && d.events[|d.events| - 1] != Restart && d.events[|d.events| - 1] != Stop
  {
    var job := round.job.value;
    var d := DispatchRound(env, round);
    var prep := PrepJob(JobConfigOf(job), env.logFilePath, env.archiveDir, round.settings, env.repos, env.host);
    if d.result.Err? && prep.events != [] {
      assert d.events[|d.events| - 1] == prep.events[|prep.events| - 1];
      assert IsPrepEvent(prep.events[|prep.events| - 1]);
    }
  }

  /** The main loop as the source writes it. */
  function MainLoop(env: Env, rounds: seq<Round>): (r: Run)
    ensures r.ending.Restarted? <==> |r.events| > 0 && r.events[|r.events| - 1] == Restart
    ensures r.ending.Stopped? <==> |r.events| > 0 && r.events[|r.events| - 1] == Stop
  {
    RoundsEndings(env, rounds, false);
    Rounds(env, rounds, false)
  }

  /** The main loop with SkipJob from `prep_job` caught: the job, already
      buried and marked `dead`, is skipped, and the loop goes on unless the
      job asked the dispatcher to stop. */
  function MainLoopSkipping(env: Env, rounds: seq<Round>): (r: Run)
    ensures r.ending != Crashed(SkipJob)
    ensures r.ending.Restarted? <==> |r.events| > 0 && r.events[|r.events| - 1] == Restart
  {
    RoundsEndings(env, rounds, true);
    Rounds(env, rounds, true)
  }

  /** A restart sentinel wins over a stop sentinel, and no job is reserved
      in that round. */
  lemma RestartBeforeStop(env: Env, rounds: seq<Round>, skipping: bool)
    requires rounds != []
    requires Sentinel(rounds[0].restartMtime, env.start)
    ensures Rounds(env, rounds, skipping) == Run([Restart], Restarted)
  {
  }

  /** `stop_worker` ends the loop only after its own job has been handed to
      a worker and deleted from the queue; no later round runs. */
  lemma StopWorkerAfterDispatch(env: Env, rounds: seq<Round>, skipping: bool)
    requires rounds != [] && RoundControl(env, rounds[0]) == Proceed
    requires rounds[0].job.Some? && StopRequested(rounds[0].job.value)
    requires DispatchRound(env, rounds[0]).result.Ok?
    ensures var r := Rounds(env, rounds, skipping);
      && r.ending == WorkerStopped
      && r.events == DispatchRound(env, rounds[0]).events
      && r.events[|r.events| - 1] == DeleteQueued(rounds[0].job.value.jid)
      && Count(r.events, IsSpawn) == 1
  {
    var round := rounds[0];
    StoppedRound(env, rounds, skipping);
    DispatchSpawnsOnce(round.job.value, env, round.settings, round.fd);
  }

  lemma StoppedRound(env: Env, rounds: seq<Round>, skipping: bool)
    requires rounds != [] && RoundControl(env, rounds[0]) == Proceed
    requires rounds[0].job.Some? && StopRequested(rounds[0].job.value)
    requires DispatchRound(env, rounds[0]).result.Ok?
    ensures Rounds(env, rounds, skipping) == Run(DispatchRound(env, rounds[0]).events, WorkerStopped)
  {
  }

  /** As written: a job whose teuthology branch cannot be fetched is marked
      `dead`, and then the SkipJob ends the dispatcher itself; the rounds
      after it are never served. */
  lemma SkipJobEndsDispatcher(env: Env, rounds: seq<Round>)
    requires rounds != [] && RoundControl(env, rounds[0]) == Proceed && rounds[0].job.Some?
    requires var cfg := JobConfigOf(rounds[0].job.value);
      && PrepFields(cfg, env.logFilePath, env.archiveDir, env.host).Ok?
      && rounds[0].settings.teuthologyPath.None?
      && (forall branch :: env.repos.teuthology(branch).BranchNotFound?)
    ensures var r := MainLoop(env, rounds);
      && r.ending == Crashed(SkipJob)
      && r.events == DispatchRound(env, rounds[0]).events
      && Count(r.events, IsSpawn) == 0
  {
    var job := rounds[0].job.value;
    var c := PrepFields(JobConfigOf(job), env.logFilePath, env.archiveDir, env.host).value;
    assert !TeuthologyFetch(c, rounds[0].settings, env.repos).Fetched?;
    DispatchSpawnsOnce(job, env, rounds[0].settings, rounds[0].fd);
  }

  /** Corrected: the same job is skipped and the next round is served. */
  lemma SkipJobSkipped(env: Env, rounds: seq<Round>)
    requires rounds != [] && RoundControl(env, rounds[0]) == Proceed && rounds[0].job.Some?
    requires !StopRequested(rounds[0].job.value)
    requires var cfg := JobConfigOf(rounds[0].job.value);
      && PrepFields(cfg, env.logFilePath, env.archiveDir, env.host).Ok?
      && rounds[0].settings.teuthologyPath.None?
      && (forall branch :: env.repos.teuthology(branch).BranchNotFound?)
    ensures var r := MainLoopSkipping(env, rounds);
      var rest := MainLoopSkipping(env, rounds[1..]);
      && r.events == DispatchRound(env, rounds[0]).events + rest.events
      && r.ending == rest.ending
  {
    var job := rounds[0].job.value;
    var c := PrepFields(JobConfigOf(job), env.logFilePath, env.archiveDir, env.host).value;
    assert !TeuthologyFetch(c, rounds[0].settings, env.repos).Fetched?;
  }
}
