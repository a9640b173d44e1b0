/** `run_with_watchdog` as a state machine. Its input is the sequence of
    observations the loop makes of the child (the `poll()` result and, while
    the child runs, the clock reading that follows); its output is the trace
    of heartbeats, archive transfers, kills and the final `dead` push. */
module Watchdog {
  import opened PyValues
  import opened Paths
  import opened Effects
  import opened Machines

  /** One check of the child: `process.poll()` and the `datetime.utcnow()`
      reading taken when it still runs, in microseconds. */
  datatype Observation = Observation(poll: Option<int>, now: int)

  // ---------------------------------------------------------------------
  // Elapsed time

  /** A `datetime.timedelta` as Python normalises it. */
  datatype TimeDelta = TimeDelta(days: int, seconds: int, microseconds: int)

  const MicrosPerSecond := 1000000
  const SecondsPerDay := 86400

  /** The difference of two clock readings `us` microseconds apart. */
  function Delta(us: int): (t: TimeDelta)
    ensures 0 <= t.seconds < SecondsPerDay && 0 <= t.microseconds < MicrosPerSecond
    ensures (t.days * SecondsPerDay + t.seconds) * MicrosPerSecond + t.microseconds == us
  {
    var s := us / MicrosPerSecond;
    TimeDelta(s / SecondsPerDay, s % SecondsPerDay, us % MicrosPerSecond)
  }

  /** `run_time.days * 60 * 60 * 24 + run_time.seconds`. */
  function TotalSeconds(t: TimeDelta): int {
    t.days * 60 * 60 * 24 + t.seconds
  }

  /** The watchdog's elapsed seconds are the whole seconds between the two
      readings, rounded down: sub-second parts are dropped, and the value is
      never negative unless the clock went backwards. */
  lemma ElapsedIsWholeSeconds(us: int)
    ensures var e := TotalSeconds(Delta(us));
      && e * MicrosPerSecond <= us < (e + 1) * MicrosPerSecond
      && e == us / MicrosPerSecond
      && (us >= 0 ==> e >= 0)
  {
    var t := Delta(us);
    assert TotalSeconds(t) == t.days * SecondsPerDay + t.seconds;
  }

  function Elapsed(start: int, now: int): int {
    TotalSeconds(Delta(now - start))
  }

  /** The kill condition: strictly longer than the maximum job time. */
  predicate Overdue(settings: Settings, start: int, now: int) {
    Elapsed(start, now) > settings.maxJobTime
  }

  // ---------------------------------------------------------------------
  // Events of the loop

  /** The job's identity, the only fields the watchdog pushes. */
  datatype WatchJob = WatchJob(name: Value, jobId: Value)

  function Identity(job: WatchJob): Config {
    map["name" := job.name, "job_id" := job.jobId]
  }

  /** `try_push_job_info(job_info)` with no status: only the job's update
      time changes. */
  function Heartbeat(job: WatchJob): Event {
    Push(Identity(job), map[])
  }

  function DeadPush(job: WatchJob): Event {
    Push(Identity(job), StatusFields("dead"))
  }

  predicate IsHeartbeat(e: Event) { e.Push? && e.fields == map[] }
  predicate IsDeadPush(e: Event) { IsStatusPush(e, "dead") }
  predicate IsKill(e: Event) { e.Kill? }

  /** Every kill is immediately preceded by an archive transfer and
      immediately followed by the heartbeat of the same tick. */
  predicate KillsBracketed(events: seq<Event>) {
    forall k :: 0 <= k < |events| && events[k].Kill? ==>
      0 < k < |events| - 1 && events[k - 1].Transfer? && IsHeartbeat(events[k + 1])
  }

  /** Every push of the watchdog carries the job's identity and nothing else. */
  predicate PushesIdentity(job: WatchJob, events: seq<Event>) {
    forall k :: 0 <= k < |events| && events[k].Push? ==> events[k].info == Identity(job)
  }

  lemma KillsBracketedAppend(a: seq<Event>, b: seq<Event>)
    requires KillsBracketed(a) && KillsBracketed(b)
    ensures KillsBracketed(a + b)
  {
    var c := a + b;
    forall k | 0 <= k < |c| && c[k].Kill?
      ensures 0 < k < |c| - 1 && c[k - 1].Transfer? && IsHeartbeat(c[k + 1])
    {
      if k >= |a| {
        assert c[k] == b[k - |a|];
        assert c[k - 1] == b[k - |a| - 1];
        assert c[k + 1] == b[k - |a| + 1];
      } else {
        assert c[k] == a[k];
      }
    }
  }

  lemma PushesIdentityAppend(job: WatchJob, a: seq<Event>, b: seq<Event>)
    requires PushesIdentity(job, a) && PushesIdentity(job, b)
    ensures PushesIdentity(job, a + b)
  {
    var c := a + b;
    forall k | 0 <= k < |c| && c[k].Push? ensures c[k].info == Identity(job) {
      if k >= |a| {
        assert c[k] == b[k - |a|];
      }
    }
  }

  // ---------------------------------------------------------------------
  // The state machine

  /** Where the watchdog stands: still polling, finished with the `dead`
      push, or ended by an exception. */
  datatype WatchState = Polling | Finished | Raised(error: Error)

  datatype Watch = Watch(events: seq<Event>, config: Config, state: WatchState)

  /** `transfer_archives(name, job_id, archive_base, job_config)`, given the
      current job config; it returns the config its fake context leaves. */
  type Transferer = Config -> Traced<Config>

  /** The branches the watchdog refuses at the end of a run. */
  const LegacyBranches: seq<Value> := [VStr("argonaut"), VStr("bobtail"), VStr("cuttlefish"), VStr("dumpling")]

  /** One pass through the loop body while the child still runs. An overdue
      job has its archives transferred and is killed; the heartbeat follows
      either way. There is no record of an earlier kill. Nothing guards the
      transfer: when it raises, or leaves a config without `owner`, the
      exception ends the watchdog before the kill. */
  function Tick(job: WatchJob, settings: Settings, start: int, transfer: Transferer, cfg: Config, now: int): (w: Watch)
    ensures !w.state.Finished?
    ensures Overdue(settings, start, now) ==>
      (w.state.Polling? <==> transfer(cfg).result.Ok? && "owner" in transfer(cfg).result.value)
    ensures w.state.Raised? ==> w.events == [Transfer(job.name, job.jobId, transfer(cfg).events)]
    ensures (w.state.Polling? && Overdue(settings, start, now)) ==>
      && w.config == transfer(cfg).result.value && "owner" in w.config
      && w.events == [Transfer(job.name, job.jobId, transfer(cfg).events),
                      Kill(job.name, job.jobId, settings.archiveBase, w.config["owner"]), Heartbeat(job)]
    ensures !Overdue(settings, start, now) ==> w.events == [Heartbeat(job)]
    ensures KillsBracketed(w.events) && PushesIdentity(job, w.events)
    ensures Count(w.events, IsDeadPush) == 0
    ensures w.state.Polling? ==>
      && Count(w.events, IsHeartbeat) == 1
      && Count(w.events, IsKill) == (if Overdue(settings, start, now) then 1 else 0)
      && IsHeartbeat(w.events[|w.events| - 1])
    ensures !Overdue(settings, start, now) ==> w.state.Polling? && w.config == cfg
    ensures Overdue(settings, start, now) ==> |w.events| > 0 && w.events[0].Transfer?
    ensures forall k :: 0 <= k < |w.events| ==> w.events[k].Transfer? || w.events[k].Kill? || w.events[k].Push?
  {
    var moved := Transfer(job.name, job.jobId, transfer(cfg).events);
    TickTraces(job, moved, Kill(job.name, job.jobId, settings.archiveBase, VNone));
    if !Overdue(settings, start, now) then Watch([Heartbeat(job)], cfg, Polling)
    else
      var t := transfer(cfg);
      match t.result
      case Err(e) => Watch([moved], cfg, Raised(e))
      case Ok(c) =>
        match Lookup(c, "owner")
        case Err(e) => Watch([moved], c, Raised(e))
        case Ok(owner) =>
          var kill := Kill(job.name, job.jobId, settings.archiveBase, owner);
          TickTraces(job, moved, kill);
          Watch([moved, kill, Heartbeat(job)], c, Polling)
  }

  /** The three traces a tick can leave: the heartbeat alone, the transfer
      alone when it or the owner lookup raised, or transfer, kill and
      heartbeat. */
  lemma TickTraces(job: WatchJob, moved: Event, kill: Event)
    requires moved.Transfer? && kill.Kill?
    ensures var e := [Heartbeat(job)];
      && KillsBracketed(e) && PushesIdentity(job, e)
      && Count(e, IsDeadPush) == 0 && Count(e, IsHeartbeat) == 1 && Count(e, IsKill) == 0
    ensures var e := [moved];
      && KillsBracketed(e) && PushesIdentity(job, e) && Count(e, IsDeadPush) == 0
    ensures var e := [moved, kill, Heartbeat(job)];
      && KillsBracketed(e) && PushesIdentity(job, e)
      && Count(e, IsDeadPush) == 0 && Count(e, IsHeartbeat) == 1 && Count(e, IsKill) == 1
  {
    var e := [moved, kill, Heartbeat(job)];
    assert [Heartbeat(job)][1..] == [];
    assert [moved][1..] == [];
    assert e[1..][1..][1..] == [];
    assert !IsDeadPush(Heartbeat(job)) by {
      assert StatusKey !in Heartbeat(job).fields;
    }
  }

  /** After the child exits: refuse a legacy branch, otherwise push `dead`. */
  function Finish(job: WatchJob, w: Watch): (r: Watch)
    ensures r.state.Finished? <==> Get(w.config, "teuthology_branch", VNone) !in LegacyBranches
    ensures r.state.Finished? ==> r.events == w.events + [DeadPush(job)]
    ensures r.state.Raised? ==> r.events == w.events && r.state.error == AssertionError
    ensures r.config == w.config
  {
    if Get(w.config, "teuthology_branch", VNone) in LegacyBranches then Watch(w.events, w.config, Raised(AssertionError))
    else Watch(w.events + [DeadPush(job)], w.config, Finished)
  }

  /** The index of the first observation at which the child had exited, or
      the number of observations if it never had. */
  function ExitIndex(obs: seq<Observation>): (n: nat)
    ensures n <= |obs|
    ensures forall k :: 0 <= k < n ==> obs[k].poll.None?
    ensures n < |obs| ==> obs[n].poll.Some?
  {
    if obs == [] then 0
    else
      var n := ExitIndex(obs[..|obs| - 1]);
      if n < |obs| - 1 then n
      else if obs[|obs| - 1].poll.Some? then |obs| - 1
      else |obs|
  }

  /** How many of the observations found the child running and overdue. */
  function OverdueTicks(settings: Settings, start: int, obs: seq<Observation>): (n: nat)
    ensures n <= |obs|
  {
    if obs == [] then 0
    else
      var o := obs[|obs| - 1];
      OverdueTicks(settings, start, obs[..|obs| - 1]) + (if o.poll.None? && Overdue(settings, start, o.now) then 1 else 0)
  }

  /** What the watchdog's trace says about the observations behind it: one
      heartbeat per pass while the child ran, one kill per overdue pass, each
      kill bracketed by its transfer and its heartbeat, and the `dead` push
      exactly once, last, after an exit was seen. */
  predicate TraceFacts(job: WatchJob, settings: Settings, start: int, obs: seq<Observation>, w: Watch) {
    && (w.state.Polling? ==> ExitIndex(obs) == |obs|)
    && (w.state.Finished? ==> ExitIndex(obs) < |obs|)
    && (!w.state.Raised? ==>
          && Count(w.events, IsHeartbeat) == ExitIndex(obs)
          && Count(w.events, IsKill) == OverdueTicks(settings, start, obs[..ExitIndex(obs)]))
    && Count(w.events, IsDeadPush) == (if w.state.Finished? then 1 else 0)
    && (w.state.Finished? ==> |w.events| > 0 && w.events[|w.events| - 1] == DeadPush(job))
    && KillsBracketed(w.events) && PushesIdentity(job, w.events)
  }

  /** The loop `while process.poll() is None: ...` over the observations
      made so far, followed by the end-of-run step once an exit is seen. */
  function Loop(job: WatchJob, settings: Settings, start: int, transfer: Transferer, cfg: Config,
                obs: seq<Observation>): (w: Watch)
    ensures TraceFacts(job, settings, start, obs, w)
    decreases |obs|
  {
    if obs == [] then Watch([], cfg, Polling)
    else
      var w := Loop(job, settings, start, transfer, cfg, obs[..|obs| - 1]);
      var o := obs[|obs| - 1];
      if !w.state.Polling? then
        StoppedFacts(job, settings, start, obs, w);
        w
      else if o.poll.Some? then
        ExitFacts(job, settings, start, obs, w);
        Finish(job, w)
      else
        var t := Tick(job, settings, start, transfer, w.config, o.now);
        TickFacts(job, settings, start, obs, w, t);
        Watch(w.events + t.events, t.config, t.state)
  }

  lemma StoppedFacts(job: WatchJob, settings: Settings, start: int, obs: seq<Observation>, w: Watch)
    requires obs != [] && !w.state.Polling?
    requires TraceFacts(job, settings, start, obs[..|obs| - 1], w)
    ensures TraceFacts(job, settings, start, obs, w)
  {
    var before := obs[..|obs| - 1];
    assert w.state.Finished? ==> obs[..ExitIndex(obs)] == before[..ExitIndex(before)];
  }

  lemma ExitFacts(job: WatchJob, settings: Settings, start: int, obs: seq<Observation>, w: Watch)
    requires obs != [] && w.state.Polling? && obs[|obs| - 1].poll.Some?
    requires TraceFacts(job, settings, start, obs[..|obs| - 1], w)
    ensures TraceFacts(job, settings, start, obs, Finish(job, w))
  {
    var before := obs[..|obs| - 1];
    assert obs[..ExitIndex(obs)] == before;
    assert before[..ExitIndex(before)] == before;
    LoopFinishFacts(job, w.events);
  }

  lemma TickFacts(job: WatchJob, settings: Settings, start: int, obs: seq<Observation>, w: Watch, t: Watch)
    requires obs != [] && w.state.Polling? && obs[|obs| - 1].poll.None?
    requires TraceFacts(job, settings, start, obs[..|obs| - 1], w)
    requires !t.state.Finished? && KillsBracketed(t.events) && PushesIdentity(job, t.events)
    requires Count(t.events, IsDeadPush) == 0
    requires t.state.Polling? ==>
      && Count(t.events, IsHeartbeat) == 1
      && Count(t.events, IsKill) == (if Overdue(settings, start, obs[|obs| - 1].now) then 1 else 0)
    ensures TraceFacts(job, settings, start, obs, Watch(w.events + t.events, t.config, t.state))
  {
    var before := obs[..|obs| - 1];
    assert obs[..|obs|] == obs;
    assert before[..ExitIndex(before)] == before;
    assert ExitIndex(obs) == |obs|;
    CountAppend(w.events, t.events, IsHeartbeat);
    CountAppend(w.events, t.events, IsKill);
    CountAppend(w.events, t.events, IsDeadPush);
    KillsBracketedAppend(w.events, t.events);
    PushesIdentityAppend(job, w.events, t.events);
  }

  lemma LoopFinishFacts(job: WatchJob, events: seq<Event>)
    requires KillsBracketed(events) && PushesIdentity(job, events)
    ensures var e := events + [DeadPush(job)];
      && KillsBracketed(e) && PushesIdentity(job, e)
      && Count(e, IsHeartbeat) == Count(events, IsHeartbeat)
      && Count(e, IsKill) == Count(events, IsKill)
      && Count(e, IsDeadPush) == Count(events, IsDeadPush) + 1
  {
    var d := [DeadPush(job)];
    assert d[1..] == [];
    assert !IsHeartbeat(DeadPush(job)) by {
      assert "status" in DeadPush(job).fields;
    }
    CountAppend(events, d, IsHeartbeat);
    CountAppend(events, d, IsKill);
    CountAppend(events, d, IsDeadPush);
    KillsBracketedAppend(events, d);
    PushesIdentityAppend(job, events, d);
  }

  /** Once the watchdog has stopped polling, later observations change
      nothing. */
  lemma {:induction false} LoopSettled(job: WatchJob, settings: Settings, start: int, transfer: Transferer,
                                       cfg: Config, obs: seq<Observation>, i: nat)
    requires i <= |obs|
    requires !Loop(job, settings, start, transfer, cfg, obs[..i]).state.Polling?
    ensures Loop(job, settings, start, transfer, cfg, obs) == Loop(job, settings, start, transfer, cfg, obs[..i])
    decreases |obs|
  {
    if i < |obs| {
      var before := obs[..|obs| - 1];
      assert before[..i] == obs[..i];
      LoopSettled(job, settings, start, transfer, cfg, before, i);
    } else {
      assert obs[..i] == obs;
    }
  }

  /** The loop written as the source writes it, one observation per pass. */
  method RunWatchdogLoop(job: WatchJob, settings: Settings, start: int, transfer: Transferer,
                         cfg: Config, obs: seq<Observation>) returns (w: Watch)
    ensures w == Loop(job, settings, start, transfer, cfg, obs)
    ensures !w.state.Raised? ==> Count(w.events, IsHeartbeat) == ExitIndex(obs)
    ensures w.state.Finished? ==> w.events[|w.events| - 1] == DeadPush(job)
  {
    w := Watch([], cfg, Polling);
    var i := 0;
    while i < |obs| && w.state.Polling?
      invariant 0 <= i <= |obs|
      invariant w == Loop(job, settings, start, transfer, cfg, obs[..i])
    {
      var o := obs[i];
      ghost var next := obs[..i + 1];
      assert next[..|next| - 1] == obs[..i] && next[|next| - 1] == o;
      if o.poll.Some? {
        w := Finish(job, w);
      } else {
        var t := Tick(job, settings, start, transfer, w.config, o.now);
        w := Watch(w.events + t.events, t.config, t.state);
      }
      i := i + 1;
    }
    if i < |obs| {
      LoopSettled(job, settings, start, transfer, cfg, obs, i);
    } else {
      assert obs[..i] == obs;
    }
  }

  // ---------------------------------------------------------------------
  // run_with_watchdog

  /** `symlink_worker_log(worker_log_path, archive_dir)`: the symlink is
      attempted only when the archive directory is a path, and any failure
      is swallowed, so this never raises. */
  function SymlinkWorkerLog(workerLog: Value, archiveDir: Value): (r: seq<Event>)
    ensures |r| <= 1
    ensures r != [] <==> archiveDir.VStr?
    ensures r != [] ==>
      && r[0].Symlink? && r[0].target == workerLog
      && Basename(r[0].link) == "worker.log"
      && |r[0].link| > |archiveDir.s| && r[0].link[..|archiveDir.s|] == archiveDir.s
  {
    if archiveDir.VStr? then
      WorkerLogLeaf(archiveDir.s);
      [Symlink(workerLog, Join(archiveDir.s, "worker.log"))]
    else []
  }

  lemma WorkerLogLeaf(dir: string)
    ensures var p := Join(dir, "worker.log");
      Basename(p) == "worker.log" && |p| > |dir| && p[..|dir|] == dir
  {
    var leaf := "worker.log";
    assert SimpleName(leaf) by {
      forall k | 0 <= k < |leaf| ensures leaf[k] != '/' {
      }
    }
    JoinNameFacts(dir, leaf);
  }

  /** `run_with_watchdog(process, job_config)`: the job's identity is read
      first; the worker variant then tries the worker-log symlink once,
      after the first sleep and before the loop. */
  function RunWithWatchdog(v: Variant, cfg: Config, settings: Settings, start: int,
                           transfer: Transferer, obs: seq<Observation>): (w: Watch)
    ensures "name" !in cfg ==> w == Watch([], cfg, Raised(KeyError("name")))
    ensures "name" in cfg && "job_id" !in cfg ==> w == Watch([], cfg, Raised(KeyError("job_id")))
    ensures "name" in cfg && "job_id" in cfg ==>
      var loop := Loop(WatchJob(cfg["name"], cfg["job_id"]), settings, start, transfer, cfg, obs);
      && (v.SupervisorVariant? ==> w == loop)
      && (v.WorkerVariant? && "worker_log" in cfg && "archive_path" in cfg ==>
            w == Watch(SymlinkWorkerLog(cfg["worker_log"], cfg["archive_path"]) + loop.events, loop.config, loop.state))
      && (v.WorkerVariant? && "worker_log" !in cfg ==> w == Watch([], cfg, Raised(KeyError("worker_log"))))
      && (v.WorkerVariant? && "worker_log" in cfg && "archive_path" !in cfg ==>
            w == Watch([], cfg, Raised(KeyError("archive_path"))))
  {
    match Lookup(cfg, "name")
    case Err(e) => Watch([], cfg, Raised(e))
    case Ok(name) =>
      match Lookup(cfg, "job_id")
      case Err(e) => Watch([], cfg, Raised(e))
      case Ok(jobId) =>
        var loop := Loop(WatchJob(name, jobId), settings, start, transfer, cfg, obs);
        if v.SupervisorVariant? then loop
        else
          match Lookup(cfg, "worker_log")
          case Err(e) => Watch([], cfg, Raised(e))
          case Ok(workerLog) =>
            match Lookup(cfg, "archive_path")
            case Err(e) => Watch([], cfg, Raised(e))
            case Ok(archiveDir) =>
              Watch(SymlinkWorkerLog(workerLog, archiveDir) + loop.events, loop.config, loop.state)
  }

  /** The whole watchdog trace, in both variants: one heartbeat per pass
      while the child runs, one kill per overdue pass, each kill bracketed,
      the `dead` push once and last, and in the worker at most one symlink,
      before everything else. */
  predicate WatchdogFacts(v: Variant, settings: Settings, start: int, obs: seq<Observation>, w: Watch) {
    && (!w.state.Raised? ==>
          && Count(w.events, IsHeartbeat) == ExitIndex(obs)
          && Count(w.events, IsKill) == OverdueTicks(settings, start, obs[..ExitIndex(obs)]))
    && Count(w.events, IsDeadPush) == (if w.state.Finished? then 1 else 0)
    && (w.state.Finished? ==> |w.events| > 0 && IsDeadPush(w.events[|w.events| - 1]))
    && KillsBracketed(w.events)
    && Count(w.events, IsSymlink) <= (if v.WorkerVariant? then 1 else 0)
    && (Count(w.events, IsSymlink) == 1 ==> w.events[0].Symlink?)
  }

  lemma WatchdogTrace(v: Variant, cfg: Config, settings: Settings, start: int,
                      transfer: Transferer, obs: seq<Observation>)
    ensures WatchdogFacts(v, settings, start, obs, RunWithWatchdog(v, cfg, settings, start, transfer, obs))
  {
    var w := RunWithWatchdog(v, cfg, settings, start, transfer, obs);
    if "name" in cfg && "job_id" in cfg {
      var job := WatchJob(cfg["name"], cfg["job_id"]);
      var loop := Loop(job, settings, start, transfer, cfg, obs);
      LoopHasNoSymlink(job, settings, start, transfer, cfg, obs);
      if v.SupervisorVariant? {
        WithPrefixFacts(v, job, settings, start, obs, [], loop);
        assert [] + loop.events == loop.events;
      } else if "worker_log" in cfg && "archive_path" in cfg {
        var link := SymlinkWorkerLog(cfg["worker_log"], cfg["archive_path"]);
        WithPrefixFacts(v, job, settings, start, obs, link, loop);
      }
    }
  }

  lemma WithPrefixFacts(v: Variant, job: WatchJob, settings: Settings, start: int, obs: seq<Observation>,
                        link: seq<Event>, loop: Watch)
    requires |link| <= (if v.WorkerVariant? then 1 else 0)
    requires forall k :: 0 <= k < |link| ==> link[k].Symlink?
    requires TraceFacts(job, settings, start, obs, loop) && Count(loop.events, IsSymlink) == 0
    ensures WatchdogFacts(v, settings, start, obs, Watch(link + loop.events, loop.config, loop.state))
  {
    var all := link + loop.events;
    PrefixCounts(link, loop.events);
    KillsBracketedAppend(link, loop.events);
    CountAppend(link, loop.events, IsSymlink);
    if link != [] {
      assert link[1..] == [];
    }
    if loop.state.Finished? {
      assert all[|all| - 1] == loop.events[|loop.events| - 1];
    }
  }

  predicate IsSymlink(e: Event) { e.Symlink? }

  lemma PrefixCounts(link: seq<Event>, events: seq<Event>)
    requires |link| <= 1 && forall k :: 0 <= k < |link| ==> link[k].Symlink?
    ensures Count(link + events, IsHeartbeat) == Count(events, IsHeartbeat)
    ensures Count(link + events, IsDeadPush) == Count(events, IsDeadPush)
    ensures Count(link + events, IsKill) == Count(events, IsKill)
  {
    CountAppend(link, events, IsKill);
    CountAppend(link, events, IsHeartbeat);
    CountAppend(link, events, IsDeadPush);
  }

  lemma LoopHasNoSymlink(job: WatchJob, settings: Settings, start: int, transfer: Transferer,
                         cfg: Config, obs: seq<Observation>)
    ensures Count(Loop(job, settings, start, transfer, cfg, obs).events, IsSymlink) == 0
  {
    var events := Loop(job, settings, start, transfer, cfg, obs).events;
    LoopEventKinds(job, settings, start, transfer, cfg, obs);
    assert forall k :: 0 <= k < |events| ==> !IsSymlink(events[k]);
    CountNone(events, IsSymlink);
  }

  predicate WatchdogKinds(events: seq<Event>) {
    forall k :: 0 <= k < |events| ==> events[k].Transfer? || events[k].Kill? || events[k].Push?
  }

  /** The loop emits only transfers, kills and pushes. */
  lemma {:induction false} LoopEventKinds(job: WatchJob, settings: Settings, start: int, transfer: Transferer,
                                          cfg: Config, obs: seq<Observation>)
    ensures WatchdogKinds(Loop(job, settings, start, transfer, cfg, obs).events)
    decreases |obs|
  {
    if obs != [] {
      LoopEventKinds(job, settings, start, transfer, cfg, obs[..|obs| - 1]);
      var w := Loop(job, settings, start, transfer, cfg, obs[..|obs| - 1]);
      var o := obs[|obs| - 1];
      if w.state.Polling? && o.poll.None? {
        var t := Tick(job, settings, start, transfer, w.config, o.now);
        var events := w.events + t.events;
        forall k | 0 <= k < |events| ensures events[k].Transfer? || events[k].Kill? || events[k].Push? {
          if k >= |w.events| {
            assert events[k] == t.events[k - |w.events|];
          } else {
            assert events[k] == w.events[k];
          }
        }
      } else if w.state.Polling? {
        var events := Finish(job, w).events;
        forall k | 0 <= k < |events| ensures events[k].Transfer? || events[k].Kill? || events[k].Push? {
          if k >= |w.events| {
            assert events[k] == DeadPush(job);
          } else {
            assert events[k] == w.events[k];
          }
        }
      }
    }
  }

  /** The watchdog in either variant emits only the worker-log symlink,
      transfers, kills and pushes. */
  lemma RunWithWatchdogKinds(v: Variant, cfg: Config, settings: Settings, start: int,
                             transfer: Transferer, obs: seq<Observation>)
    ensures var events := RunWithWatchdog(v, cfg, settings, start, transfer, obs).events;
      forall k :: 0 <= k < |events| ==> events[k].Symlink? || events[k].Transfer? || events[k].Kill? || events[k].Push?
  {
    if "name" in cfg && "job_id" in cfg {
      var loop := Loop(WatchJob(cfg["name"], cfg["job_id"]), settings, start, transfer, cfg, obs);
      LoopEventKinds(WatchJob(cfg["name"], cfg["job_id"]), settings, start, transfer, cfg, obs);
      if v.WorkerVariant? && "worker_log" in cfg && "archive_path" in cfg {
        var link := SymlinkWorkerLog(cfg["worker_log"], cfg["archive_path"]);
        var events := link + loop.events;
        forall k | 0 <= k < |events|
          ensures events[k].Symlink? || events[k].Transfer? || events[k].Kill? || events[k].Push?
        {
          if k >= |link| {
            assert events[k] == loop.events[k - |link|];
          }
        }
      }
    }
  }

  /** A transfer that leaves the job config's keys as they were. */
  ghost predicate KeepsKeys(transfer: Transferer) {
    forall c :: transfer(c).result.Ok? ==> transfer(c).result.value.Keys == c.Keys
  }

  /** The watchdog neither adds nor drops keys of the job config when its
      transfers do not. */
  lemma {:induction false} LoopKeepsKeys(job: WatchJob, settings: Settings, start: int, transfer: Transferer,
                                         cfg: Config, obs: seq<Observation>)
    requires KeepsKeys(transfer)
    ensures Loop(job, settings, start, transfer, cfg, obs).config.Keys == cfg.Keys
    decreases |obs|
  {
    if obs != [] {
      LoopKeepsKeys(job, settings, start, transfer, cfg, obs[..|obs| - 1]);
      var w := Loop(job, settings, start, transfer, cfg, obs[..|obs| - 1]);
      var o := obs[|obs| - 1];
      if w.state.Polling? && o.poll.None? && Overdue(settings, start, o.now) {
        var t := transfer(w.config);
        assert t.result.Ok? ==> t.result.value.Keys == w.config.Keys;
      }
    }
  }

  lemma RunWithWatchdogKeepsKeys(v: Variant, cfg: Config, settings: Settings, start: int,
                                 transfer: Transferer, obs: seq<Observation>)
    requires KeepsKeys(transfer)
    ensures RunWithWatchdog(v, cfg, settings, start, transfer, obs).config.Keys == cfg.Keys
  {
    if "name" in cfg && "job_id" in cfg {
      LoopKeepsKeys(WatchJob(cfg["name"], cfg["job_id"]), settings, start, transfer, cfg, obs);
    }
  }

  /** The kill is re-issued: a job found overdue on two consecutive ticks
      is killed twice, each time after a transfer. */
  lemma KillReissued(job: WatchJob, settings: Settings, start: int, transfer: Transferer, cfg: Config,
                     t1: int, t2: int, t3: int)
    requires Overdue(settings, start, t1) && Overdue(settings, start, t2)
    requires forall c :: transfer(c) == Traced([], Ok(c))
    requires "owner" in cfg && "teuthology_branch" !in cfg
    ensures var obs := [Observation(None, t1), Observation(None, t2), Observation(Some(0), t3)];
      var w := Loop(job, settings, start, transfer, cfg, obs);
      w.state.Finished? && Count(w.events, IsKill) == 2 && Count(w.events, IsHeartbeat) == 2
  {
    var obs := [Observation(None, t1), Observation(None, t2), Observation(Some(0), t3)];
    assert transfer(cfg) == Traced([], Ok(cfg));
    var tick1 := Tick(job, settings, start, transfer, cfg, t1);
    var tick2 := Tick(job, settings, start, transfer, cfg, t2);
    assert tick1.state.Polling? && tick1.config == cfg;
    assert tick2.state.Polling? && tick2.config == cfg;
    assert obs[..1][..0] == [];
    assert Loop(job, settings, start, transfer, cfg, []) == Watch([], cfg, Polling);
    var w1 := Loop(job, settings, start, transfer, cfg, obs[..1]);
    assert w1 == Watch([] + tick1.events, cfg, Polling);
    assert obs[..2][..1] == obs[..1];
    var w2 := Loop(job, settings, start, transfer, cfg, obs[..2]);
    assert w2 == Watch(w1.events + tick2.events, cfg, Polling);
    assert obs[..3] == obs;
    assert obs[..3][..2] == obs[..2];
    assert ExitIndex(obs[..1]) == 1;
    assert ExitIndex(obs[..2]) == 2;
    assert ExitIndex(obs) == 2;
    assert OverdueTicks(settings, start, obs[..1]) == 1;
    assert OverdueTicks(settings, start, obs[..2]) == 2;
  }
}
