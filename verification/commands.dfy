/** The argument lists the core hands to `subprocess.Popen`: the
    `teuthology-results` command of a suite-boundary job, the `teuthology`
    execution command (supervisor and worker variants) and the dispatcher's
    `teuthology-worker` command. Each builder has a parser partner that reads
    the list back the way the receiving command line does. */
module Commands {
  import opened PyValues
  import opened Paths
  import opened Effects
  import opened JobConfig

  /** The value following `flag` among flag/value pairs laid out at even
      offsets, as an option parser reads them. */
  function FlagValue(pairs: seq<Value>, flag: string): Option<Value>
    decreases |pairs|
  {
    if |pairs| < 2 then None
    else if pairs[0] == VStr(flag) then Some(pairs[1])
    else FlagValue(pairs[2..], flag)
  }

  lemma {:induction false} FlagValueAppend(a: seq<Value>, b: seq<Value>, flag: string)
    requires |a| % 2 == 0
    ensures FlagValue(a + b, flag) == if FlagValue(a, flag).Some? then FlagValue(a, flag) else FlagValue(b, flag)
    decreases |a|
  {
    if a == [] {
      assert a + b == b;
    } else {
      assert (a + b)[0] == a[0] && (a + b)[1] == a[1];
      assert (a + b)[2..] == a[2..] + b;
      FlagValueAppend(a[2..], b, flag);
    }
  }

  /** `v` when it is truthy: how `if job_config.get(k): args.extend([flag, v])`
      decides whether a flag is passed. */
  function IfTruthy(v: Value): Option<Value> {
    if Truthy(v) then Some(v) else None
  }

  /** A value passed on a command line only when truthy: it must then be a
      string. */
  predicate StrIfTruthy(v: Value) { Truthy(v) ==> v.VStr? }

  /** `[flag, v]` when `v` is truthy, nothing otherwise. */
  function OptionalPair(flag: string, v: Value): (r: seq<Value>)
    ensures |r| % 2 == 0
    ensures FlagValue(r, flag) == IfTruthy(v)
    ensures Joinable(r) <==> StrIfTruthy(v)
  {
    if Truthy(v) then [VStr(flag), v] else []
  }

  lemma OptionalPairOther(flag: string, other: string, v: Value)
    requires flag != other
    ensures FlagValue(OptionalPair(flag, v), other) == None
  {
  }

  // ---------------------------------------------------------------------
  // Suite-boundary job: teuthology-results

  /** `job_config.get('results_timeout', teuth_config.results_timeout)`. */
  function ResultsTimeout(cfg: Config, settings: Settings): Value {
    Get(cfg, "results_timeout", settings.resultsTimeout)
  }

  /** The five arguments every `teuthology-results` command starts with. */
  function ResultsPrefix(binPath: string, archiveDir: string, safeName: string, name: string): seq<Value> {
    [VStr(Join(binPath, "teuthology-results")), VStr("--archive-dir"),
     VStr(Join(archiveDir, safeName)), VStr("--name"), VStr(name)]
  }

  /** The options a first-in-suite job passes: a seed and a subset, each only
      when truthy. */
  function MemoOptions(cfg: Config): (r: seq<Value>)
    ensures |r| % 2 == 0
    ensures FlagValue(r, "--seed") == IfTruthy(Get(cfg, "seed", VNone))
    ensures FlagValue(r, "--subset") == IfTruthy(Get(cfg, "subset", VNone))
    ensures FlagValue(r, "--timeout") == None && FlagValue(r, "--email") == None
  {
    var seed := OptionalPair("--seed", Get(cfg, "seed", VNone));
    var subset := OptionalPair("--subset", Get(cfg, "subset", VNone));
    FlagValueAppend(seed, subset, "--seed");
    FlagValueAppend(seed, subset, "--subset");
    FlagValueAppend(seed, subset, "--timeout");
    FlagValueAppend(seed, subset, "--email");
    seed + subset
  }

  /** The options a last-in-suite job passes: always a timeout, and an email
      address only when truthy. */
  function ResultsOptions(cfg: Config, timeoutText: string): (r: seq<Value>)
    ensures |r| % 2 == 0
    ensures FlagValue(r, "--timeout") == Some(VStr(timeoutText))
    ensures FlagValue(r, "--email") == IfTruthy(Get(cfg, "email", VNone))
    ensures FlagValue(r, "--seed") == None && FlagValue(r, "--subset") == None
  {
    var timeout := [VStr("--timeout"), VStr(timeoutText)];
    var email := OptionalPair("--email", Get(cfg, "email", VNone));
    FlagValueAppend(timeout, email, "--email");
    FlagValueAppend(timeout, email, "--seed");
    FlagValueAppend(timeout, email, "--subset");
    timeout + email
  }

  /** The config values a `teuthology-results` command carries as they are
      (the timeout is rendered with `str()`) are strings. */
  predicate ResultsWordsAreStr(cfg: Config) {
    if IsFirstInSuite(cfg) then StrIfTruthy(Get(cfg, "seed", VNone)) && StrIfTruthy(Get(cfg, "subset", VNone))
    else StrIfTruthy(Get(cfg, "email", VNone))
  }

  /** The `teuthology-results` command of a suite-boundary job. When both
      boundary flags are set the first-in-suite options are used. */
  function ResultsArgs(cfg: Config, binPath: string, archiveDir: string, settings: Settings, host: Host): (r: Result<seq<Value>>)
    ensures r.Ok? <==>
      "name" in cfg && cfg["name"].VStr? && (IsFirstInSuite(cfg) || Str(ResultsTimeout(cfg, settings)).Ok?)
    ensures r.Ok? ==>
      var name := cfg["name"].s;
      && |r.value| >= 5 && |r.value| % 2 == 1
      && r.value[..5] == ResultsPrefix(binPath, archiveDir, host.munge(name), name)
    ensures r.Ok? && IsFirstInSuite(cfg) ==>
      var opts := r.value[5..];
      && FlagValue(opts, "--seed") == IfTruthy(Get(cfg, "seed", VNone))
      && FlagValue(opts, "--subset") == IfTruthy(Get(cfg, "subset", VNone))
      && FlagValue(opts, "--timeout") == None && FlagValue(opts, "--email") == None
    ensures r.Ok? && !IsFirstInSuite(cfg) ==>
      var opts := r.value[5..];
      && FlagValue(opts, "--timeout") == Some(VStr(Str(ResultsTimeout(cfg, settings)).value))
      && FlagValue(opts, "--email") == IfTruthy(Get(cfg, "email", VNone))
      && FlagValue(opts, "--seed") == None && FlagValue(opts, "--subset") == None
    ensures r.Ok? ==> (Joinable(r.value) <==> ResultsWordsAreStr(cfg))
  {
    var name :- LookupStr(cfg, "name");
    var prefix := ResultsPrefix(binPath, archiveDir, host.munge(name), name);
    assert Joinable(prefix);
    if IsFirstInSuite(cfg) then
      var opts := MemoOptions(cfg);
      assert (prefix + opts)[5..] == opts;
      JoinableAppend(prefix, opts);
      JoinableAppend(OptionalPair("--seed", Get(cfg, "seed", VNone)), OptionalPair("--subset", Get(cfg, "subset", VNone)));
      Ok(prefix + opts)
    else
      var timeout :- Str(ResultsTimeout(cfg, settings));
      var opts := ResultsOptions(cfg, timeout);
      assert (prefix + opts)[5..] == opts;
      JoinableAppend(prefix, opts);
      JoinableAppend([VStr("--timeout"), VStr(timeout)], OptionalPair("--email", Get(cfg, "email", VNone)));
      Ok(prefix + opts)
  }

  // ---------------------------------------------------------------------
  // The teuthology execution command

  /** What the `teuthology` command line carries. */
  datatype ExecRequest = ExecRequest(
    program: string,
    verbose: bool,
    unlock: bool,
    owner: Value,
    archive: Value,
    name: Value,
    description: Option<Value>,
    configPath: string)

  /** `bin/teuthology [-v] [--unlock] --owner O --archive A --name N
      [--description D] -- CONFIG`. */
  function ExecArgs(q: ExecRequest): seq<Value> {
    [VStr(q.program)] + (VerbosePart(q) + (UnlockPart(q) + (CorePart(q) + (DescriptionPart(q) + TailPart(q)))))
  }

  function VerbosePart(q: ExecRequest): seq<Value> { if q.verbose then [VStr("-v")] else [] }
  function UnlockPart(q: ExecRequest): seq<Value> { if q.unlock then [VStr("--unlock")] else [] }
  function CorePart(q: ExecRequest): seq<Value> {
    [VStr("--owner"), q.owner, VStr("--archive"), q.archive, VStr("--name"), q.name]
  }
  function DescriptionPart(q: ExecRequest): seq<Value> {
    match q.description case Some(d) => [VStr("--description"), d] case None => []
  }
  function TailPart(q: ExecRequest): seq<Value> { [VStr("--"), VStr(q.configPath)] }

  /** Consumes a leading boolean flag. */
  function TakeFlag(a: seq<Value>, flag: string): (bool, seq<Value>) {
    if |a| > 0 && a[0] == VStr(flag) then (true, a[1..]) else (false, a)
  }

  /** Consumes a leading flag and its value. */
  function TakeOption(a: seq<Value>, flag: string): (Option<Value>, seq<Value>) {
    if |a| > 1 && a[0] == VStr(flag) then (Some(a[1]), a[2..]) else (None, a)
  }

  /** Reads an execution command back, positionally. */
  function ParseExecArgs(a: seq<Value>): Option<ExecRequest> {
    if |a| == 0 || !a[0].VStr? then None
    else
      var (verbose, a1) := TakeFlag(a[1..], "-v");
      var (unlock, a2) := TakeFlag(a1, "--unlock");
      match ParseCore(a2)
      case None => None
      case Some(c) => Some(ExecRequest(a[0].s, verbose, unlock, c.owner, c.archive, c.name, c.description, c.configPath))
  }

  /** What follows the boolean flags: the three options, the optional
      description, and `--` with the config path. */
  datatype CoreArgs = CoreArgs(owner: Value, archive: Value, name: Value, description: Option<Value>, configPath: string)

  function ParseCore(a: seq<Value>): Option<CoreArgs> {
    if |a| < 6 || a[0] != VStr("--owner") || a[2] != VStr("--archive") || a[4] != VStr("--name") then None
    else
      var (description, rest) := TakeOption(a[6..], "--description");
      if |rest| == 2 && rest[0] == VStr("--") && rest[1].VStr? then
        Some(CoreArgs(a[1], a[3], a[5], description, rest[1].s))
      else None
  }

  lemma TakeFlagOf(flag: string, present: bool, rest: seq<Value>)
    requires |rest| > 0 && rest[0] != VStr(flag)
    ensures TakeFlag((if present then [VStr(flag)] else []) + rest, flag) == (present, rest)
  {
    if present {
      assert ([VStr(flag)] + rest)[1..] == rest;
    } else {
      assert [] + rest == rest;
    }
  }

  lemma TakeOptionOf(flag: string, value: Option<Value>, rest: seq<Value>)
    requires |rest| > 0 && rest[0] != VStr(flag)
    ensures TakeOption((match value case Some(d) => [VStr(flag), d] case None => []) + rest, flag) == (value, rest)
  {
    match value
    case Some(d) =>
      assert ([VStr(flag), d] + rest)[2..] == rest;
    case None =>
      assert [] + rest == rest;
  }

  /** The flags of the execution command are pairwise distinct words. */
  lemma FlagsDistinct()
    ensures VStr("-v") != VStr("--unlock") && VStr("-v") != VStr("--owner")
    ensures VStr("--unlock") != VStr("--owner") && VStr("--description") != VStr("--")
  {
    assert |"-v"| == 2 && |"--owner"| == 7 && |"--unlock"| == 8 && |"--description"| == 13 && |"--"| == 2;
  }

  lemma CoreRoundTrip(q: ExecRequest)
    ensures ParseCore(CorePart(q) + (DescriptionPart(q) + TailPart(q)))
         == Some(CoreArgs(q.owner, q.archive, q.name, q.description, q.configPath))
  {
    var a := CorePart(q) + (DescriptionPart(q) + TailPart(q));
    FlagsDistinct();
    assert a[6..] == DescriptionPart(q) + TailPart(q);
    TakeOptionOf("--description", q.description, TailPart(q));
  }

  /** Every execution command reads back as the request it was built from. */
  lemma ExecArgsRoundTrip(q: ExecRequest)
    ensures ParseExecArgs(ExecArgs(q)) == Some(q)
  {
    var a := ExecArgs(q);
    var r2 := CorePart(q) + (DescriptionPart(q) + TailPart(q));
    var r1 := UnlockPart(q) + r2;
    FlagsDistinct();
    assert a[1..] == VerbosePart(q) + r1;
    TakeFlagOf("-v", q.verbose, r1);
    TakeFlagOf("--unlock", q.unlock, r2);
    CoreRoundTrip(q);
  }

  /** The layout facts of an execution command: the program first, `-v`
      right after it exactly when verbose, `--unlock` right after the
      optional `-v`, then `--owner`, and `--` with the config path last. */
  lemma ExecArgsLayout(q: ExecRequest)
    ensures var a := ExecArgs(q);
      var i := 1 + (if q.verbose then 1 else 0);
      && |a| >= i + 8 && a[0] == VStr(q.program)
      && (a[1] == VStr("-v") <==> q.verbose)
      && (a[i] == VStr("--unlock") <==> q.unlock)
      && a[i + (if q.unlock then 1 else 0)] == VStr("--owner")
      && a[|a| - 2..] == [VStr("--"), VStr(q.configPath)]
  {
    var a := ExecArgs(q);
    var r3 := DescriptionPart(q) + TailPart(q);
    var r2 := CorePart(q) + r3;
    var r1 := UnlockPart(q) + r2;
    var i := 1 + |VerbosePart(q)|;
    FlagsDistinct();
    assert a[1..] == VerbosePart(q) + r1;
    assert |a| == i + |r1| && a[i..] == r1;
    assert r2[0] == VStr("--owner");
    assert r1[0] == if q.unlock then VStr("--unlock") else VStr("--owner");
    assert a[1] == if q.verbose then VStr("-v") else r1[0];
    assert r1[|UnlockPart(q)|..] == r2;
    assert a[i + |UnlockPart(q)|] == r2[0];
    assert r3[|r3| - 2..] == TailPart(q);
    assert a[|a| - 2..] == r3[|r3| - 2..];
  }

  /** Every word of a command is a str. `' '.join(arg)`, logged just before
      a child is started, raises `TypeError` otherwise, and so does `Popen`
      for a word that is neither a str nor bytes nor a path (the model has no
      bytes or path objects). */
  predicate Joinable(args: seq<Value>) {
    forall k :: 0 <= k < |args| ==> args[k].VStr?
  }

  const JoinError := "sequence item: expected str instance"

  const PopenError := "expected str, bytes or os.PathLike object"

  lemma JoinableAppend(a: seq<Value>, b: seq<Value>)
    ensures Joinable(a + b) <==> Joinable(a) && Joinable(b)
  {
    if Joinable(a) && Joinable(b) {
      forall k | 0 <= k < |a + b| ensures (a + b)[k].VStr? {
        if k >= |a| { assert (a + b)[k] == b[k - |a|]; }
      }
    }
    if Joinable(a + b) {
      forall k | 0 <= k < |a| ensures a[k].VStr? { assert a[k] == (a + b)[k]; }
      forall k | 0 <= k < |b| ensures b[k].VStr? { assert b[k] == (a + b)[k + |a|]; }
    }
  }

  /** The words of an execution command that come from the config are the
      owner, the archive path, the name and the description, if any; all the
      others are strings by construction. */
  lemma {:induction false} ExecArgsJoinable(q: ExecRequest)
    ensures Joinable(ExecArgs(q)) <==>
      q.owner.VStr? && q.archive.VStr? && q.name.VStr? && (q.description.Some? ==> q.description.value.VStr?)
  {
    JoinableAppend(DescriptionPart(q), TailPart(q));
    JoinableAppend(CorePart(q), DescriptionPart(q) + TailPart(q));
    JoinableAppend(UnlockPart(q), CorePart(q) + (DescriptionPart(q) + TailPart(q)));
    JoinableAppend(VerbosePart(q), UnlockPart(q) + (CorePart(q) + (DescriptionPart(q) + TailPart(q))));
    JoinableAppend([VStr(q.program)], VerbosePart(q) + (UnlockPart(q) + (CorePart(q) + (DescriptionPart(q) + TailPart(q)))));
    var core := CorePart(q);
    assert core[1] == q.owner && core[3] == q.archive && core[5] == q.name;
    if q.description.Some? {
      assert DescriptionPart(q)[1] == q.description.value;
    }
  }

  /** The config values the command carries as words are all strings (a
      None description is left off the command). */
  predicate WordsAreStr(cfg: Config)
    requires ExecKeys <= cfg.Keys
  {
    && cfg["owner"].VStr? && cfg["archive_path"].VStr? && cfg["name"].VStr?
    && (cfg["description"] == VNone || cfg["description"].VStr?)
  }

  /** The description passed on the command line: only a non-None one. */
  function DescriptionOf(cfg: Config): Option<Value>
    requires "description" in cfg
  {
    if cfg["description"] == VNone then None else Some(cfg["description"])
  }

  /** The keys the execution command reads with `job_config[...]`. */
  const ExecKeys := {"owner", "archive_path", "name", "description"}

  /** `verbose or job_config['verbose']`: the config is only consulted when
      the command-line flag is off. */
  function VerboseFlag(cfg: Config, verbose: bool): (r: Result<bool>)
    ensures r.Ok? <==> verbose || "verbose" in cfg
    ensures r.Ok? ==> (r.value <==> verbose || Truthy(cfg["verbose"]))
  {
    if verbose then Ok(true)
    else
      var v :- Lookup(cfg, "verbose");
      Ok(Truthy(v))
  }

  function ExecRequestOf(cfg: Config, program: string, verbose: bool, unlock: bool, configPath: string): (r: Result<ExecRequest>)
    ensures r.Ok? <==> (verbose || "verbose" in cfg) && ExecKeys <= cfg.Keys
    ensures r.Ok? ==> r.value == ExecRequest(program, verbose || Truthy(cfg["verbose"]), unlock,
      cfg["owner"], cfg["archive_path"], cfg["name"], DescriptionOf(cfg), configPath)
  {
    var v :- VerboseFlag(cfg, verbose);
    var owner :- Lookup(cfg, "owner");
    var archive :- Lookup(cfg, "archive_path");
    var name :- Lookup(cfg, "name");
    var description :- Lookup(cfg, "description");
    Ok(ExecRequest(program, v, unlock, owner, archive, name,
      if description == VNone then None else Some(description), configPath))
  }

  /** The supervisor's execution command, built from the merged config: the
      config path is `<archive_path>/orig.config.yaml`. */
  function SupervisorExecArgs(cfg: Config, binPath: string, verbose: bool): (r: Result<seq<Value>>)
    ensures r.Ok? <==> (verbose || "verbose" in cfg) && ExecKeys <= cfg.Keys && cfg["archive_path"].VStr?
    ensures r.Ok? ==> ParseExecArgs(r.value) == Some(ExecRequest(
      Join(binPath, "teuthology"), verbose || Truthy(cfg["verbose"]), false,
      cfg["owner"], cfg["archive_path"], cfg["name"], DescriptionOf(cfg),
      Join(cfg["archive_path"].s, "orig.config.yaml")))
    ensures r.Ok? ==> (Joinable(r.value) <==> WordsAreStr(cfg))
  {
    var q :- ExecRequestOf(cfg, Join(binPath, "teuthology"), verbose, false, "");
    var archiveDir :- LookupStr(cfg, "archive_path");
    var q' := q.(configPath := Join(archiveDir, "orig.config.yaml"));
    ExecArgsRoundTrip(q');
    ExecArgsJoinable(q');
    Ok(ExecArgs(q'))
  }

  /** The worker's execution command: `--unlock` is always passed and the
      config path is the temporary file the worker wrote. */
  function WorkerExecArgs(cfg: Config, binPath: string, verbose: bool, tmpName: string): (r: Result<seq<Value>>)
    ensures r.Ok? <==> (verbose || "verbose" in cfg) && ExecKeys <= cfg.Keys
    ensures r.Ok? ==> ParseExecArgs(r.value) == Some(ExecRequest(
      Join(binPath, "teuthology"), verbose || Truthy(cfg["verbose"]), true,
      cfg["owner"], cfg["archive_path"], cfg["name"], DescriptionOf(cfg), tmpName))
    ensures r.Ok? ==> (Joinable(r.value) <==> WordsAreStr(cfg))
  {
    var q :- ExecRequestOf(cfg, Join(binPath, "teuthology"), verbose, true, tmpName);
    ExecArgsRoundTrip(q);
    ExecArgsJoinable(q);
    Ok(ExecArgs(q))
  }

  /** A `verbose: true` carried only inside the legacy blob still turns on
      `-v`, because the merge runs before the flag is read. */
  lemma LegacyVerboseAddsFlag(cfg: Config, binPath: string)
    requires LegacyKey in cfg && cfg[LegacyKey] == VDict(map["verbose" := VBool(true)])
    requires ExecKeys <= cfg.Keys && cfg["archive_path"].VStr?
    ensures var r := SupervisorExecArgs(MergeLegacy(cfg), binPath, false);
      r.Ok? && r.value[1] == VStr("-v")
  {
    var m := MergeLegacy(cfg);
    assert "verbose" in LegacyEntries(cfg);
    assert m["verbose"] == VBool(true);
    assert forall k :: k in ExecKeys ==> k != LegacyKey && k in m;
    var r := SupervisorExecArgs(m, binPath, false);
    var q := ParseExecArgs(r.value).value;
    ExecArgsLayout(q);
    ExecArgsRoundTrip(q);
  }

  // ---------------------------------------------------------------------
  // The dispatcher's teuthology-worker command

  /** `teuthology-worker -v --bin-path BIN --archive-dir DIR --config-fd FD`. */
  function WorkerLaunchArgs(binPath: string, archiveDir: string, configFd: nat): seq<Value> {
    [VStr(Join(binPath, "teuthology-worker")), VStr("-v"),
     VStr("--bin-path"), VStr(binPath),
     VStr("--archive-dir"), VStr(archiveDir),
     VStr("--config-fd"), VStr(IntToDecimal(configFd))]
  }

  /** What the worker's command line delivers to its `main`. */
  datatype WorkerCli = WorkerCli(verbose: bool, binPath: string, archiveDir: string, configFd: int)

  /** Reads a `teuthology-worker` command the way the worker does, including
      `int(args["--config-fd"])`. */
  function ParseWorkerCli(a: seq<Value>): Option<WorkerCli> {
    if |a| < 2 then None
    else
      var verbose := a[1] == VStr("-v");
      var opts := if verbose then a[2..] else a[1..];
      match (FlagValue(opts, "--bin-path"), FlagValue(opts, "--archive-dir"), FlagValue(opts, "--config-fd"))
      case (Some(VStr(b)), Some(VStr(d)), Some(VStr(fd))) =>
        (match ParseInt(fd) case Some(n) => Some(WorkerCli(verbose, b, d, n)) case None => None)
      case _ => None
  }

  /** The dispatcher always asks for a verbose worker, and the worker reads
      back exactly the binary path, archive directory and descriptor it was
      given. */
  lemma WorkerLaunchRoundTrip(binPath: string, archiveDir: string, configFd: nat)
    ensures var a := WorkerLaunchArgs(binPath, archiveDir, configFd);
      a[1] == VStr("-v") && ParseWorkerCli(a) == Some(WorkerCli(true, binPath, archiveDir, configFd))
  {
    var a := WorkerLaunchArgs(binPath, archiveDir, configFd);
    var opts := a[2..];
    var fd := VStr(IntToDecimal(configFd));
    assert opts == [VStr("--bin-path"), VStr(binPath), VStr("--archive-dir"), VStr(archiveDir), VStr("--config-fd"), fd];
    assert opts[2..] == [VStr("--archive-dir"), VStr(archiveDir), VStr("--config-fd"), fd];
    assert opts[2..][2..] == [VStr("--config-fd"), fd];
    assert FlagValue(opts, "--bin-path") == Some(VStr(binPath));
    assert FlagValue(opts, "--archive-dir") == Some(VStr(archiveDir));
    assert FlagValue(opts[2..][2..], "--config-fd") == Some(fd);
    assert FlagValue(opts, "--config-fd") == Some(fd);
    IntRoundTrip(configFd);
  }

  /** The `PYTHONPATH` the worker's child runs with. */
  function ChildPythonPath(suitePath: string, env: map<string, string>): string {
    PythonPath(suitePath, if "PYTHONPATH" in env then env["PYTHONPATH"] else "")
  }
}
