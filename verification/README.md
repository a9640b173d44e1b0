# teuthology dispatcher, supervisor and worker — a Dafny model

teuthology runs Ceph integration tests. A **dispatcher** reserves jobs from a
beanstalk queue. It buries each job, prepares it (`prep_job`: archive path,
teuthology and suite checkouts), locks the job's machines when it needs them,
and starts a **worker** (`teuthology-worker`) for it before deleting it from
the queue. The worker (and the newer **supervisor**, its successor) runs one
job. It reimages the job's targets when the job lists them. For a
suite-boundary job (`first_in_suite` or `last_in_suite`) it starts
`teuthology-results` detached. For a test job it starts the `teuthology`
child and supervises it. With a results server the child runs under a
**watchdog**: it sends heartbeats, and a job that overruns `max_job_time` has
its archives transferred from the remote machines and is killed. Without a
results server the child is simply waited for. At the end the supervisor
unlocks the job's machines, or nukes them, depending on the job's status and
its flags.

The model is a set of pure functions over a Python-like job config
(`map<string, Value>`, module `PyValues`). Each external action is an `Event`
appended to a trace (`Effects.Traced`). Helpers whose code is not part of
this model are uninterpreted function fields of a `Host` record:
`safepath.munge`, `os.path.normpath`, `decanonicalize_hostname`, `get_user`
and `os.path.isdir`. Other inputs from the outside world are parameters:
- the job record the results server returns;
- machine statuses;
- `reimage_many`, `lock_machines_helper` and the repository fetchers;
- the outcome of each `pull_directory`;
- clock readings and `poll()` results.

Modules follow the program:

| module | models |
|---|---|
| `PyValues` | YAML/Python values, truthiness, `cfg[key]`, `str()` of scalars, `int(str(i))` |
| `Paths` | `os.path.join` and `os.path.basename` on POSIX paths; `str.strip(':')` |
| `Effects` | the event trace, settings and foreign helpers |
| `JobConfig` | the legacy `config` merge, `create_fake_context`, archive and log paths |
| `Commands` | the `teuthology-results`, `teuthology` and `teuthology-worker` argument lists, with parsers that read them back |
| `Machines` | `reimage_machines`, `unlock_targets` (the unlock/nuke decision) and `lock_machines` |
| `Archive` | `transfer_archives`, `archive_logs` and `compress_logs` in both variants, and the phase-to-directory mapping |
| `Watchdog` | `run_with_watchdog` as a state machine over a sequence of observations, and `symlink_worker_log` |
| `Supervisor` | `teuthology/dispatcher/supervisor.py`: `main` and `run_job` |
| `Worker` | `teuthology/worker.py`: `main` and `run_job` |
| `Dispatcher` | `teuthology/dispatcher/__init__.py`: sentinels, `prep_job`, one dispatch, and the main loop |

Where the code and its documentation disagree, the model follows the code:
- **Nuke flag.** `unlock_targets` reads the hyphenated key `nuke-on-error`,
  so a job that spells it `nuke_on_error` is neither nuked nor unlocked
  (`Machines.UnderscoreNukeFlagIgnored`).
- **Kills.** The watchdog kills an overdue job again on every pass in which
  it is still running, not once (`Watchdog.KillReissued`).
- **Transfer before the kill.** The transfer is meant to be best-effort, but
  neither watchdog guards it. A transfer that raises ends the watchdog
  before the kill and before the heartbeat, and so does a config left
  without `owner`. The overdue job is then not killed (`Watchdog.Tick`).
- **Legacy merge.** The merge removes `config` from the job config unless the
  nested dict itself carries a `config` key, which `dict.update` puts back
  (`JobConfig.MergeCanReinsertConfig`).
- **Read errors.** The supervisor's `archive_logs` ignores only a tar
  `ReadError`. The worker's transfer catches nothing, so a read error ends it
  (`Archive.WorkerReadErrorStops`).
- **Worker statuses.** The worker's `reimage_machines` pushes `waiting` twice
  and never `running` (`Machines.ReimageStatusSequence`).
- **Worker paths.**
  - The worker's fake context has no `name`.
  - Its suite directory in `main` uses the raw job name, not the munged one.
  - It reads `suite_path` before the legacy merge
    (`Worker.SuitePathReadBeforeMerge`).
- **Supervisor unlock.** The supervisor checks `targets` after the merge and
  after the watchdog, on the config those left.

## Model

| member | source | states |
|---|---|---|
| PyValues.Str | teuthology/dispatcher/__init__.py:156 | `str()` of a string is the string itself. `str()` of an int reads back as that int. Only lists and dicts fail. |
| PyValues.IntRoundTrip | teuthology/dispatcher/__init__.py:112 | Writing an int in decimal and parsing it back gives the same int, negative values included. |
| PyValues.IntToDecimalInjective | teuthology/dispatcher/__init__.py:112 | Two different queue ids never render as the same `job_id` string. |
| Paths.PythonPath | teuthology/worker.py:141-143 | The child's `PYTHONPATH` never starts or ends with a colon. |
| Paths.PythonPathWithoutPrevious | teuthology/worker.py:141-142 | With no inherited `PYTHONPATH`, the new one is the suite path with its outer colons stripped. |
| Paths.PythonPathPrepends | teuthology/worker.py:141-143 | A suite path and an inherited value without stray colons are joined as `suite:previous`: the suite checkout comes first. |
| Paths.StripIsTrimmedSlice | teuthology/worker.py:142 | `strip(':')` keeps a contiguous middle slice and removes only colons on either side. |
| JobConfig.MergeLegacy | teuthology/dispatcher/supervisor.py:115-121 | Every entry of the nested dict wins. Every other top-level key except `config` is kept with its value. Nothing else appears. `config` remains only when the nested dict carries one. |
| JobConfig.MergeLegacyIdempotent | teuthology/worker.py:114-120 | Merging a second time changes nothing, unless the nested dict carried its own `config`. |
| JobConfig.MergeCanReinsertConfig | teuthology/dispatcher/supervisor.py:115-121 | A concrete config whose nested dict holds `config` still has `config` after the merge. |
| JobConfig.CreateFakeContext | teuthology/dispatcher/supervisor.py:238-259 | Succeeds exactly when the keys it reads are present. It keeps every key of the config, and changes only a None `owner`, to the current user. The context's fields are the config's values. `os_version` defaults to None. The supervisor's context also carries `name`. |
| JobConfig.FakeContextStable | teuthology/dispatcher/__init__.py:211-231 | Building a context again from its own config yields the same context: the owner default is applied once. |
| JobConfig.JobArchivePath | teuthology/dispatcher/__init__.py:155-157 | The archive path lies under the archive directory, and its last component is the job id. |
| JobConfig.SuiteBranchFallback | teuthology/dispatcher/__init__.py:172-173 | The fallback applies only to missing keys, so the suite branch is None exactly when `suite_branch` holds None, or `suite_branch` is missing and `branch` holds None. |
| JobConfig.SupervisorLogPath | teuthology/dispatcher/supervisor.py:46-47 | Defined exactly when `archive_path` is a string and `job_id` renders. The errors come in source order: a missing `archive_path`, then a missing or unprintable `job_id`, then a non-string archive path. The log lies under the job's archive and is named `supervisor.<job_id>`. |
| JobConfig.WorkerLogPath | teuthology/worker.py:43-47 | Defined exactly when `name` is a string and `job_id` renders. The log lies under the raw-named suite directory and is named `worker.<job_id>`. |
| Commands.OptionalPair | teuthology/dispatcher/supervisor.py:85-88 | An option pair is passed, and read back, exactly when its value is truthy. Its words are all strings exactly when the value is a string or is not passed. |
| Commands.MemoOptions | teuthology/dispatcher/supervisor.py:83-88 | A first-in-suite command carries `--seed` and `--subset` only when truthy, and never `--timeout` or `--email`. |
| Commands.ResultsOptions | teuthology/dispatcher/supervisor.py:89-95 | A last-in-suite command always carries `--timeout` with the rendered timeout. It carries `--email` only when truthy, and never `--seed` or `--subset`. |
| Commands.ResultsArgs | teuthology/dispatcher/supervisor.py:77-95 | Fails exactly when the name is not a string, or a results timeout cannot be rendered. Otherwise it gives the program, `--archive-dir <suite dir>` and `--name <name>`, then the first-in-suite options when that flag is set, and the results options otherwise. Its words are all strings exactly when each option value it passes as is (seed and subset, or email) is a string. |
| Commands.ExecArgsRoundTrip | teuthology/dispatcher/supervisor.py:109-134 | Parsing a built `teuthology` command recovers the request it was built from. |
| Commands.ExecArgsLayout | teuthology/worker.py:108-133 | The program comes first. `-v` follows exactly when verbose, then `--unlock` exactly when requested, then `--owner`. The list ends with `--` and the config path. |
| Commands.VerboseFlag | teuthology/dispatcher/supervisor.py:123-124 | The config's `verbose` is read, and must exist, only when the command-line flag is off. The result is their disjunction. |
| Commands.ExecRequestOf | teuthology/worker.py:122-133 | Succeeds exactly when the keys the command reads are present. The request carries the job's owner, archive, name and description, the latter only when not None. |
| Commands.SupervisorExecArgs | teuthology/dispatcher/supervisor.py:109-136 | The supervisor's child command reads back as `teuthology` without `--unlock`, on `<archive_path>/orig.config.yaml`. It fails exactly when a read key is missing or the archive path is not a string. Its words can be joined for the log line exactly when the owner, archive path and name are strings and the description is None or a string. |
| Commands.WorkerExecArgs | teuthology/worker.py:108-144 | The worker's child command reads back as `teuthology --unlock` on the temporary file. Its words can be joined for the log line exactly when the owner, archive path and name are strings and the description is None or a string. |
| Commands.ExecArgsJoinable | teuthology/dispatcher/supervisor.py:123-136 | `' '.join` of an execution command succeeds exactly when the owner, archive and name it carries are strings, and so is its description when it has one. |
| Commands.LegacyVerboseAddsFlag | teuthology/dispatcher/supervisor.py:115-124 | `verbose: true` inside the nested config alone still yields `-v`, because the merge runs before the flag is read. |
| Commands.WorkerLaunchRoundTrip | teuthology/dispatcher/__init__.py:127-138 | The dispatcher's worker command is always verbose. Parsed by the `teuthology-worker` usage, it gives back exactly the bin path, archive directory and descriptor. |
| Machines.ReimageMachines | teuthology/dispatcher/supervisor.py:163-173 | Succeeds exactly when the context builds, `targets` exists and reimaging succeeds. The trace is then: push `waiting`, reimage, push the second status. Only `targets` is replaced, by the reimaged value; every other key keeps the context's value. |
| Machines.ReimageStatusSequence | teuthology/worker.py:245-255 | The supervisor pushes `waiting` then `running`. The worker never pushes `running`. |
| Machines.LockedHosts | teuthology/dispatcher/supervisor.py:181-182 | A host is listed exactly when some reported machine is locked and has that short name. |
| Machines.UnlockEvents | teuthology/dispatcher/supervisor.py:190-192 | One `unlock_one` per locked host, in order, with the job record's owner and archive path. |
| Machines.UnlockTargets | teuthology/dispatcher/supervisor.py:176-196 | A missing `targets` in the record raises. No locked machine means no effect. Otherwise the locked hosts are unlocked exactly when the decision says so, and there is one nuke exactly when nuking is decided. Nothing else happens. When neither unlock nor nuke is decided, nothing happens and the config, owner included, is returned unchanged. It succeeds exactly when the record has targets and one of two things holds. Either nothing is locked, or the fake context's keys are present when an unlock or a nuke is decided, and for an unlock the record's owner and archive path are present too. |
| Machines.UnlockStep | teuthology/dispatcher/supervisor.py:186-192 | Without an unlock decision nothing happens and the config is unchanged. With one, the fake context is built, which touches only `owner`, and every locked host is unlocked. It never nukes. It fails exactly when an unlock is decided and a context key, or the record's owner or archive path, is missing. |
| Machines.UnlockNukeExclusive | teuthology/dispatcher/supervisor.py:186-196 | No job is both unlocked and nuked. |
| Machines.DecisionTable | teuthology/dispatcher/supervisor.py:186-196 | Decides for all status and flag combinations. A pass unlocks. A failure with `unlock_on_failure` but without `nuke-on-error` unlocks. A failure with `nuke-on-error` nukes. Any other failure does neither. |
| Machines.UnlockOnFailureScenario | teuthology/dispatcher/supervisor.py:186-192 | A failed job with `unlock_on_failure` and two locked machines unlocks both, in order, and nukes nothing. |
| Machines.UnderscoreNukeFlagIgnored | teuthology/dispatcher/supervisor.py:187-193 | A failed job that spells the flag `nuke_on_error` is neither nuked nor unlocked. |
| Machines.LockMachines | teuthology/dispatcher/__init__.py:203-208 | With a blocking context, it requests as many machines as there are roles, of the job's machine type. The result is the config as the helper leaves it. It fails without an effect exactly when a needed key is missing. |
| Archive.DestinationLayout | teuthology/dispatcher/supervisor.py:270-292 | The `init` phase lands in the host directory itself. Any other plain phase lands in a subdirectory of its own name. Distinct phases never share a destination. |
| Archive.ArchiveLogs | teuthology/dispatcher/supervisor.py:279-294 | Succeeds exactly when no remote's pull fails with something other than a `ReadError`. Then every remote was pulled, in order. Otherwise the trace is the in-order prefix that ends at the failing remote. |
| Archive.ArchiveLogsFailure | teuthology/dispatcher/supervisor.py:287-294 | A failed phase stops at the first remote whose pull failed fatally, and reports that error. Every remote before it was pulled without a fatal failure. |
| Archive.ReadErrorDoesNotStopOthers | teuthology/dispatcher/supervisor.py:291-294 | When every failure is a `ReadError`, every remote is still pulled, in order, and the phase succeeds. |
| Archive.TransferPhases | teuthology/dispatcher/supervisor.py:270-274 | The phase loop succeeds exactly when no pull of any phase from any remote fails fatally. |
| Archive.TransferSchedule | teuthology/dispatcher/supervisor.py:270-274 | Without fatal failures, the trace is the reference schedule: phase by phase, a compress, then a pull from each remote. |
| Archive.ScheduleCounts | teuthology/dispatcher/supervisor.py:270-274 | The schedule holds one compress per phase and one pull per phase and remote, and nothing else. |
| Archive.TransferCounts | teuthology/dispatcher/supervisor.py:270-274 | A successful transfer compressed every phase once and pulled every phase from every remote once. |
| Archive.SupervisorOrder | teuthology/dispatcher/supervisor.py:270-274 | For two phases and two remotes the order is: compress p, pull a and b; compress q, pull a and b. |
| Archive.SupervisorTransfer | teuthology/dispatcher/supervisor.py:262-294 | A record without `archive` does nothing. Otherwise it succeeds exactly when three things hold: the named context builds; its archive path is a string or the record lists no phase; and no pull fails fatally. A non-string archive path raises `TypeError` in the first phase, after that phase's compress. On success the config is the context's, with one compress per phase and a pull per phase and remote. |
| Archive.PullHost | teuthology/worker.py:237-240 | One remote succeeds exactly when every phase pulls. The trace is the phases' pulls, in order, up to the first failure. |
| Archive.PullHosts | teuthology/worker.py:231-240 | The worker's loop succeeds exactly when every pull of every phase from every remote succeeds. It then made one pull each and nothing else. |
| Archive.WorkerReadErrorStops | teuthology/worker.py:231-240 | A `ReadError` on the first pull ends the worker's transfer after that single pull. |
| Archive.PullHostsSchedule | teuthology/worker.py:231-240 | When every pull succeeds, the trace is the reference schedule: host by host, every phase. |
| Archive.WorkerOrder | teuthology/worker.py:231-240 | For two remotes and two phases the order is: a p, a q, b p, b q. |
| Archive.WorkerTransfer | teuthology/worker.py:219-242 | A record without `archive` does nothing. Otherwise it succeeds exactly when the unnamed context builds, `archive_path` is a path and every pull succeeds. It never compresses, and pulls once per remote and phase. |
| Watchdog.Delta | teuthology/dispatcher/supervisor.py:213 | The `timedelta` normal form: seconds within a day and microseconds within a second, summing back to the difference. |
| Watchdog.ElapsedIsWholeSeconds | teuthology/dispatcher/supervisor.py:213-215 | The elapsed time compared with `max_job_time` is the floor of the difference in whole seconds. |
| Watchdog.Tick | teuthology/dispatcher/supervisor.py:211-225 | A pass without overrun is one heartbeat and changes nothing else. An overdue pass goes on exactly when the transfer succeeds and leaves a config with `owner`. It is then the transfer, a kill with that config's owner, and the heartbeat, and the config is the transfer's. Otherwise it raises with only the transfer in its trace, so the job is not killed. It never pushes `dead`. |
| Watchdog.Finish | teuthology/dispatcher/supervisor.py:227-235 | After the exit, a legacy teuthology branch raises an assertion error. Any other branch gets exactly one `dead` push, last. |
| Watchdog.Loop | teuthology/dispatcher/supervisor.py:211-235 | Over any observations: one heartbeat per pass before the exit, one kill per overdue pass, each kill preceded by a transfer and followed by a heartbeat. Every push names the job. A finished run ends with its single `dead` push. |
| Watchdog.LoopSettled | teuthology/dispatcher/supervisor.py:211 | Once the loop has stopped polling, later observations change nothing. |
| Watchdog.RunWatchdogLoop | teuthology/dispatcher/supervisor.py:211-235 | The imperative loop computes the same run as the state machine. Its heartbeats are the passes before the exit, and a finished run ends with the `dead` push. |
| Watchdog.KillReissued | teuthology/dispatcher/supervisor.py:215-221 | A job overdue on two passes is killed twice. |
| Watchdog.SymlinkWorkerLog | teuthology/worker.py:211-216 | The symlink is attempted exactly when the archive directory is a path, as `<archive>/worker.log` pointing to the worker log. It never raises. |
| Watchdog.RunWithWatchdog | teuthology/worker.py:171-208 | The job's name and id are read first. The worker variant reads both paths and links the log once before the loop. The rest is the loop. |
| Watchdog.WatchdogTrace | teuthology/dispatcher/supervisor.py:199-235 | In either variant: one heartbeat per pass before the exit, one kill per overdue pass, each kill bracketed by a transfer and a heartbeat, and exactly one `dead` push, last, when finished. A symlink appears only in the worker variant, at most once, and first. |
| Watchdog.LoopEventKinds | teuthology/dispatcher/supervisor.py:211-235 | The loop only transfers, kills and pushes. |
| Watchdog.RunWithWatchdogKinds | teuthology/worker.py:181-208 | The watchdog only symlinks, transfers, kills and pushes. |
| Watchdog.LoopKeepsKeys | teuthology/dispatcher/supervisor.py:211-225 | The loop neither adds nor drops config keys when its transfers do not. |
| Watchdog.RunWithWatchdogKeepsKeys | teuthology/worker.py:171-208 | The same for the whole watchdog, in either variant. |
| Supervisor.BoundaryRun | teuthology/dispatcher/supervisor.py:69-105 | With a results server and no `job_id`, it raises KeyError with no effect, because the handler that logs a failed delete reads `job_id` again. Otherwise it deletes the job's results once when there is a results server. It starts `teuthology-results` detached exactly once when the arguments build and all its words are strings. A non-string word makes `Popen` raise `TypeError`. It removes the archive last. It succeeds exactly when the process started and `archive_path` is a path. |
| Supervisor.Supervise | teuthology/dispatcher/supervisor.py:141-153 | With a results server, the watchdog. Without one, a plain wait that leaves the config as it was. |
| Supervisor.UnlockAfterRun | teuthology/dispatcher/supervisor.py:159-160 | Unlocking happens only when the config still lists targets. It only unlocks or nukes. |
| Supervisor.TestRun | teuthology/dispatcher/supervisor.py:107-160 | A missing `job_id` raises KeyError at the first log line, with no effect. A command whose owner, archive path or name is not a string, or whose description is neither None nor a string, raises `TypeError` at the log line, before any spawn. Otherwise the child is spawned first with the merged config's command, then supervised. The unlock step follows only when the child finished. A raising watchdog propagates its error. |
| Supervisor.TestRunLayout | teuthology/dispatcher/supervisor.py:137-160 | The spawn comes first. The supervision trace follows unchanged. Nothing after the spawn starts another process. |
| Supervisor.RunJob | teuthology/dispatcher/supervisor.py:68-160 | A job without a string name fails with no effect. A boundary job takes the boundary branch. Every other job takes the test branch. |
| Supervisor.Main | teuthology/dispatcher/supervisor.py:31-65 | The log file is set up first. SkipJob from `run_job` ends the supervisor normally, so only reimaging can still surface it. Without targets the trace is the log and `run_job`. |
| Supervisor.BoundaryJobIsNotWatched | teuthology/dispatcher/supervisor.py:70-105 | A boundary job starts at most one process, detached. It never heartbeats, kills, unlocks or nukes. It ends by removing its archive. |
| Supervisor.WaitsWithoutResultsServer | teuthology/dispatcher/supervisor.py:148-153 | Without a results server the spawn is followed by the wait, with no heartbeat. |
| Supervisor.WatchedRun | teuthology/dispatcher/supervisor.py:141-147 | With a results server the watchdog's trace follows the spawn unchanged, with all the watchdog's facts. |
| Supervisor.TestRunLeavesMachines | teuthology/dispatcher/supervisor.py:159-160 | A test job whose merged config lists no targets never reimages, unlocks or nukes. |
| Supervisor.NoUnlockWithoutTargets | teuthology/dispatcher/supervisor.py:159-160 | No targets means no unlock step. |
| Supervisor.TestRunWithoutUnlock | teuthology/dispatcher/supervisor.py:137-160 | Without an unlock step the trace is the spawn and the supervision alone. |
| Supervisor.NoTargetsNoMachines | teuthology/dispatcher/supervisor.py:52-53 | A job with targets neither at the top level nor in its nested config never has its machines reimaged, unlocked or nuked. |
| Supervisor.RunJobLeavesMachines | teuthology/dispatcher/supervisor.py:68-160 | The same for `run_job` alone, in both branches. |
| Supervisor.WatchdogKeepsTargetsOut | teuthology/dispatcher/supervisor.py:141-160 | Supervision leaves the config's keys as they were, so the unlock check sees the merged config's `targets`. |
| Worker.BoundaryRun | teuthology/worker.py:69-101 | With a results server and no `job_id`, it raises KeyError with no effect, before the suite directory exists. Otherwise it deletes the job's results once when there is a results server. It then creates the suite archive directory and starts `teuthology-results` detached with that directory. If a word of that command is not a string, `Popen` raises `TypeError` and the directory is the last effect. The job's archive is left in place. |
| Worker.Supervise | teuthology/worker.py:149-163 | With a results server, the watchdog. Without one, the log symlink when both paths exist, then the wait; a missing path raises. |
| Worker.ChildSpawn | teuthology/worker.py:122-145 | The child is the merged config's `teuthology --unlock` command. Its `PYTHONPATH` is built from the suite path. It fails in three cases: the command cannot be built; the suite path is not a string; or, checked after the suite path, a word of the command is not a string, which is a `TypeError`. |
| Worker.Launch | teuthology/worker.py:105-163 | `job_id` and `suite_path` are read before anything else. Then the spawn, then the supervision, whose state decides the outcome. |
| Worker.TestRun | teuthology/worker.py:103-163 | The job's archive directory is created first, then the launch. |
| Worker.RunJob | teuthology/worker.py:67-168 | A job without a string name fails with no effect. A boundary job takes the boundary branch. It creates its suite archive directory unless a results server is set and `job_id` is missing. Every other job takes the test branch, whose first effect is creating the job's archive directory. |
| Worker.Prelude | teuthology/worker.py:43-54 | The raw-named suite directory comes first, then the log file. Reimaging only happens with targets; without targets the config is unchanged. |
| Worker.Main | teuthology/worker.py:27-64 | The prelude's trace comes first. SkipJob from `run_job` ends the worker normally. |
| Worker.BoundaryCreatesResultsDir | teuthology/worker.py:76-99 | Whenever `teuthology-results` is started, its `--archive-dir` suite directory was created before. |
| Worker.ChildCommand | teuthology/worker.py:122-145 | The child is attached and reads back as `teuthology --unlock` on the temporary file. The suite checkout comes first in its `PYTHONPATH`. |
| Worker.SuitePathReadBeforeMerge | teuthology/worker.py:107-120 | A `suite_path` only the nested config carries makes the run fail with a KeyError, although the merge would have provided it. |
| Worker.WorkerNeverUnlocks | teuthology/worker.py:27-168 | The worker itself never unlocks or nukes: `--unlock` leaves that to the child. |
| Worker.MainEventKinds | teuthology/worker.py:27-64 | Every event of the worker is a log, directory, spawn, delete, reimage, watchdog or wait event. |
| Dispatcher.SentinelControl | teuthology/dispatcher/__init__.py:95-98 | Restarts exactly when the restart sentinel is fresh. Stops exactly when only the stop sentinel is fresh. Otherwise it proceeds. |
| Dispatcher.SentinelFreshness | teuthology/dispatcher/__init__.py:28-35 | A missing sentinel, or one not newer than the start time, requests nothing. A newer one does. |
| Dispatcher.DispatcherLogPath | teuthology/dispatcher/__init__.py:68-69 | The log file is named `dispatcher.<tube>.<pid>`. |
| Dispatcher.PrepFields | teuthology/dispatcher/__init__.py:152-162 | Adds exactly `worker_log`, `archive_path` and `teuthology_branch`, with the munged archive path and the master default, and keeps every other key. It fails exactly when `job_id` or a string `name` is missing. |
| Dispatcher.RepoEvents | teuthology/dispatcher/__init__.py:174-176 | The suite repository is switched exactly when the job names a truthy `suite_repo`. |
| Dispatcher.Checkout | teuthology/dispatcher/__init__.py:177-200 | Adds only `suite_path`, the normalised join of the suite checkout and `suite_relpath`. The bin path is `<teuthology>/virtualenv/bin`, and it must be a directory. A failure here is never SkipJob. |
| Dispatcher.PrepFetched | teuthology/dispatcher/__init__.py:164-194 | SkipJob exactly when a fetch fails. The job is then pushed `dead` with the failure message, as the last event. |
| Dispatcher.PrepFetchedCounts | teuthology/dispatcher/__init__.py:181-194 | One `dead` push exactly when SkipJob is raised, none otherwise. No process is started. |
| Dispatcher.PrepJob | teuthology/dispatcher/__init__.py:151-200 | Field errors come before any fetch. Only repository switches and pushes happen. SkipJob always follows a `dead` push. |
| Dispatcher.PrepJobCounts | teuthology/dispatcher/__init__.py:151-200 | `prep_job` marks the job `dead` exactly when it raises SkipJob, and starts no process. |
| Dispatcher.JobConfigOf | teuthology/dispatcher/__init__.py:108-112 | The body plus a `job_id` string that parses back to the queue id. Every other key is kept. |
| Dispatcher.LaunchWorker | teuthology/dispatcher/__init__.py:122-148 | An optional lock, then the worker spawn, then the queue delete, last. A lock failure has no effect. |
| Dispatcher.LaunchSpawnsOnce | teuthology/dispatcher/__init__.py:134-148 | A launched job starts exactly one process. |
| Dispatcher.DispatchJob | teuthology/dispatcher/__init__.py:106-148 | The job is buried first. `prep_job`'s failure propagates with its trace. A success ends with the worker spawn and the queue delete. |
| Dispatcher.DispatchSpawnsOnce | teuthology/dispatcher/__init__.py:106-148 | One worker for a dispatched job, none for a failed one. |
| Dispatcher.FailedJobStaysBuried | teuthology/dispatcher/__init__.py:106-107 | A job that fails before its worker starts is buried and never deleted. |
| Dispatcher.DispatchedWorker | teuthology/dispatcher/__init__.py:127-139 | The worker reads back the bin path, archive directory and descriptor, and is verbose. The bin path ends in `bin`. |
| Dispatcher.Rounds | teuthology/dispatcher/__init__.py:86-148 | With SkipJob caught, no run crashes with SkipJob. |
| Dispatcher.AfterDispatch | teuthology/dispatcher/__init__.py:114-148 | A round ends as the rest of the loop, by `stop_worker`, or by crashing with the dispatch's own error. A skipped SkipJob never crashes it. |
| Dispatcher.RoundsEndings | teuthology/dispatcher/__init__.py:95-98 | The loop ends restarted exactly when its last event is the restart, and stopped exactly when it is the stop. |
| Dispatcher.MainLoop | teuthology/dispatcher/__init__.py:86-148 | The same, for the loop as written. |
| Dispatcher.MainLoopSkipping | teuthology/dispatcher/__init__.py:117-121 | The corrected loop never crashes with SkipJob. |
| Dispatcher.RestartBeforeStop | teuthology/dispatcher/__init__.py:95-98 | A fresh restart sentinel wins over a stop sentinel, and no job is reserved. |
| Dispatcher.StopWorkerAfterDispatch | teuthology/dispatcher/__init__.py:114-148 | `stop_worker` ends the loop only after its own job was handed to one worker and deleted. No later round runs. |
| Dispatcher.SkipJobEndsDispatcher | teuthology/dispatcher/__init__.py:117-121 | As written, a job whose teuthology branch is missing is marked `dead` and then ends the dispatcher. |
| Dispatcher.SkipJobSkipped | teuthology/dispatcher/__init__.py:117-121 | Corrected, the same job is skipped and the next rounds are served. |

## Left out

- Processes, sleeps and logging are events or nothing. These are not modelled: PIDs, return codes, log levels, `install_except_hook`, the `p.returncode` messages, and `time.sleep`. One piece of logging is kept: the `' '.join` of the command that the supervisor and worker evaluate before the spawn, because it raises on a word that is not a string.
- YAML parsing and dumping are not modelled. A job body is taken as an already parsed mapping. The supervisor writes the reimaged config back to its config file (teuthology/dispatcher/supervisor.py:54-55); that write is not an event.
- Temporary files are not modelled: their names and descriptors are parameters.
- The dispatcher's start-up is left out: `load_config`, `set_config_attr`, the beanstalk connection and the initial fetches of master.
- `result_proc` is always None in the dispatcher, so its poll is left out.
- The restart's `os.execv` and the stop's `sys.exit` are the `Restart` and `Stop` events that end the loop.
- Exceptions from `job.delete()` are swallowed, and the model does not represent them.
- `compress_logs`, `unlock_one`, `nuke`, `kill_job`, `try_push_job_info` and `try_delete_jobs` never fail in the model. Only the pull failures are modelled.
- The remote directories that `archive_logs` and the worker's transfer create before pulling are not events.
- `add_remotes` is a parameter, the short names of the job's remotes. The same goes for `ResultsSerializer.job_info`, `get_status` and `query.get_statuses`.
- The `archive` record a transfer reads is the same on every watchdog pass. So are the remotes and the pull outcomes.
- Pull outcomes: each `pull_directory` outcome is an oracle indexed by the requested pull; the model cannot express that a retry might behave differently.
- Floating-point time is not modelled. The clock is in integer microseconds, and a sentinel's mtime is an integer on the same clock.
- Exceptions other than those of the two fetches are left out: any other exception from `fetch_teuthology` or `fetch_qa_suite` is not modelled. The `RuntimeError` text is abstracted to an error value.
- The global `ceph_qa_suite_git_url` is an event; its later reads by the fetcher are not modelled.
- PyValues.Str: `str()` of a list or dict is an error in the model. Python would render it, but no path in the core passes one.
- `teuthology/task/internal/unlock_targets.py` is not part of this model.
- The docopt layer of `scripts/worker.py` is not part of this model. Its usage line is the shape `Commands.WorkerLaunchRoundTrip` parses.
- Watchdog.OverdueTicks: its own contract only bounds the count. Its meaning comes from `Watchdog.Loop`, which equates it with the kills.

## Findings

| source | as written | input that shows it | evidently intended | confidence | as-written member | corrected member |
|---|---|---|---|---|---|---|
| teuthology/dispatcher/__init__.py:117-121 | `prep_job` marks the job `dead` and raises SkipJob, but the main loop does not catch it, so the dispatcher itself exits | a reserved job whose `teuthology_branch` does not exist, with no `teuthology_path` configured | skip the buried, already `dead` job and serve the next one, as the supervisor and worker do when they catch SkipJob | not executed | Dispatcher.SkipJobEndsDispatcher | Dispatcher.SkipJobSkipped |
