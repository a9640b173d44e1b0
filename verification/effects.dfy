/** The external world as seen by the supervisor, the worker and the
    dispatcher: their settings, the foreign helpers they call, and every
    external effect they cause, recorded as an `Event` appended to a trace. */
module Effects {
  import opened PyValues

  /** The fake context object `create_fake_context` builds for the lock,
      reimage, unlock and nuke helpers. `name` is only set by the
      supervisor's variant. */
  datatype FakeContext = FakeContext(
    config: Config,
    block: bool,
    owner: Value,
    archive: Value,
    machineType: Value,
    osType: Value,
    osVersion: Value,
    name: Option<Value>)

  /** One external effect. */
  datatype Event =
    | SetupLog(path: string)                                 // setup_log_file
    | Push(info: Config, fields: Config)                     // report.try_push_job_info(info, fields)
    | DeleteJobs(name: Value, jobId: Value)                  // report.try_delete_jobs
    | MakeDirs(path: string)                                 // safepath.makedirs
    | RemoveArchive(path: string)                            // remove the files of a directory, then the directory
    | Spawn(args: seq<Value>, detached: bool, pythonPath: Option<string>)  // subprocess.Popen
    | Wait                                                   // p.wait() without a watchdog
    | Reimage(ctx: FakeContext, targets: Value, machineType: Value)  // reimage_many
    | Unlock(ctx: FakeContext, host: string, owner: Value, archivePath: Value)  // unlock_one
    | Nuke(ctx: FakeContext)                                 // nuke(ctx, True)
    | Lock(ctx: FakeContext, count: nat, machineType: Value) // lock_machines_helper
    | Transfer(name: Value, jobId: Value, steps: seq<Event>) // transfer_archives from the watchdog, with its own effects
    | Kill(name: Value, jobId: Value, archiveBase: string, owner: Value)  // kill_job
    | Symlink(target: Value, link: string)                   // os.symlink of the worker log
    | Compress(remotePath: string)                           // compress_logs on every remote
    | Pull(remote: string, remotePath: string, archiveRoot: string, phaseKind: string)  // pull_directory into the phase's directory under archiveRoot
    | SetSuiteRepo(url: Value)                               // teuth_config.ceph_qa_suite_git_url = ...
    | Bury(jid: int)                                         // job.bury()
    | DeleteQueued(jid: int)                                 // job.delete()
    | Restart                                                // os.execv of the dispatcher
    | Stop                                                   // sys.exit(0) of the dispatcher

  /** Effects performed so far, and how the computation ended. */
  datatype Traced<T> = Traced(events: seq<Event>, result: Result<T>)

  /** The global teuthology configuration values the core reads. */
  datatype Settings = Settings(
    resultsServer: bool,        // teuth_config.results_server is set
    resultsTimeout: Value,      // teuth_config.results_timeout
    maxJobTime: int,            // teuth_config.max_job_time, in seconds
    archiveBase: string,        // teuth_config.archive_base
    teuthologyPath: Option<string>)  // teuth_config.teuthology_path

  /** Helpers whose code is not part of this model, as uninterpreted functions. */
  datatype Host = Host(
    munge: string -> string,        // safepath.munge
    getUser: string,                // misc.get_user()
    normpath: string -> string,     // os.path.normpath
    shortname: string -> string,    // misc.decanonicalize_hostname
    isDir: string -> bool)          // os.path.isdir

  const StatusKey := "status"

  /** The `fields` argument of a push that sets a status. */
  function StatusFields(status: string): Config {
    map[StatusKey := VStr(status)]
  }

  /** The status a push sets, if any. */
  function PushedStatus(e: Event): Option<Value> {
    if e.Push? && StatusKey in e.fields then Some(e.fields[StatusKey]) else None
  }

  predicate IsStatusPush(e: Event, status: string) {
    PushedStatus(e) == Some(VStr(status))
  }

  /** The statuses pushed by a trace, in order. */
  function PushedStatuses(events: seq<Event>): seq<Value> {
    if events == [] then []
    else
      (match PushedStatus(events[0]) case Some(v) => [v] case None => [])
      + PushedStatuses(events[1..])
  }

  /** How many events of a trace satisfy `p`. */
  function Count(events: seq<Event>, p: Event -> bool): nat {
    if events == [] then 0 else (if p(events[0]) then 1 else 0) + Count(events[1..], p)
  }

  lemma {:induction false} CountAppend(a: seq<Event>, b: seq<Event>, p: Event -> bool)
    ensures Count(a + b, p) == Count(a, p) + Count(b, p)
    decreases |a|
  {
    if a == [] {
      assert a + b == b;
    } else {
      assert (a + b)[0] == a[0];
      assert (a + b)[1..] == a[1..] + b;
      CountAppend(a[1..], b, p);
    }
  }

  lemma {:induction false} CountNone(a: seq<Event>, p: Event -> bool)
    requires forall k :: 0 <= k < |a| ==> !p(a[k])
    ensures Count(a, p) == 0
    decreases |a|
  {
    if a != [] {
      CountNone(a[1..], p);
    }
  }

  lemma {:induction false} CountPositive(a: seq<Event>, p: Event -> bool, k: nat)
    requires k < |a| && p(a[k])
    ensures Count(a, p) > 0
    decreases |a|
  {
    if k > 0 {
      CountPositive(a[1..], p, k - 1);
    }
  }

  lemma {:induction false} PushedStatusesAppend(a: seq<Event>, b: seq<Event>)
    ensures PushedStatuses(a + b) == PushedStatuses(a) + PushedStatuses(b)
    decreases |a|
  {
    if a == [] {
      assert a + b == b;
    } else {
      assert (a + b)[0] == a[0];
      assert (a + b)[1..] == a[1..] + b;
      PushedStatusesAppend(a[1..], b);
    }
  }

  /** The last two events of a trace extended by at least two events are
      the extension's. */
  lemma TailOfAppend(a: seq<Event>, b: seq<Event>)
    requires |b| >= 2
    ensures var c := a + b;
      |c| >= |a| + 2 && c[|c| - 1] == b[|b| - 1] && c[|c| - 2] == b[|b| - 2]
  {
  }
}
