/** Normalisation and derivation of a job configuration: the suite-boundary
    test, the legacy nested `config` merge, the fake context with its owner
    default, and the fields derived from the job's name, id and branches. */
module JobConfig {
  import opened PyValues
  import opened Paths
  import opened Effects

  /** A first- or last-in-suite job, which aggregates results instead of
      running a test. */
  predicate IsBoundary(cfg: Config) {
    Truthy(Get(cfg, "first_in_suite", VNone)) || Truthy(Get(cfg, "last_in_suite", VNone))
  }

  /** The first-in-suite branch wins when both flags are set. */
  predicate IsFirstInSuite(cfg: Config) {
    Truthy(Get(cfg, "first_in_suite", VNone))
  }

  // ---------------------------------------------------------------------
  // Legacy nested config

  const LegacyKey := "config"

  /** The entries the legacy blob contributes: its contents when it is a
      dict, nothing otherwise (the code only warns about a non-dict). */
  function LegacyEntries(cfg: Config): map<string, Value> {
    if LegacyKey in cfg && cfg[LegacyKey].VDict? then cfg[LegacyKey].entries else map[]
  }

  /** `job_config.pop('config')` followed by `job_config.update(inner)` when
      the popped value is a dict. */
  function MergeLegacy(cfg: Config): (r: Config)
    ensures LegacyKey !in cfg ==> r == cfg
    ensures forall k :: k in LegacyEntries(cfg) ==> k in r && r[k] == LegacyEntries(cfg)[k]
    ensures forall k :: k in r && k !in LegacyEntries(cfg) ==> k in cfg && k != LegacyKey && r[k] == cfg[k]
    ensures forall k :: k in cfg && k != LegacyKey ==> k in r
    ensures LegacyKey in r <==> LegacyKey in LegacyEntries(cfg)
  {
    if LegacyKey in cfg then
      var rest := cfg - {LegacyKey};
      match cfg[LegacyKey]
      case VDict(inner) => rest + inner
      case _ => rest
    else cfg
  }

  /** Merging again changes nothing unless the blob itself carried a nested
      `config` entry, which the update re-inserts at the top level. */
  lemma MergeLegacyIdempotent(cfg: Config)
    requires LegacyKey !in LegacyEntries(cfg)
    ensures MergeLegacy(MergeLegacy(cfg)) == MergeLegacy(cfg)
  {
  }

  /** An inner blob that carries `config` leaves that key in the merged
      config: the key is not always gone after the merge. */
  lemma MergeCanReinsertConfig()
    ensures var cfg := map[LegacyKey := VDict(map[LegacyKey := VInt(1)])];
      LegacyKey in MergeLegacy(cfg) && MergeLegacy(cfg)[LegacyKey] == VInt(1)
  {
    var cfg := map[LegacyKey := VDict(map[LegacyKey := VInt(1)])];
    assert LegacyKey in LegacyEntries(cfg);
  }

  // ---------------------------------------------------------------------
  // create_fake_context

  /** The keys `create_fake_context` reads with `job_config[...]`. */
  function ContextKeys(withName: bool): set<string> {
    {"owner", "archive_path", "machine_type", "os_type"} + (if withName then {"name"} else {})
  }

  /** `create_fake_context(job_config, block)`. The supervisor's variant also
      records the job name (`withName`). A None owner is replaced by the
      current user, in the returned context's config as in the job config. */
  function CreateFakeContext(cfg: Config, block: bool, withName: bool, host: Host): (r: Result<FakeContext>)
    ensures r.Ok? <==> ContextKeys(withName) <= cfg.Keys
    ensures r.Ok? ==>
      var c := r.value;
      && c.config.Keys == cfg.Keys
      && (forall k :: k in cfg && k != "owner" ==> c.config[k] == cfg[k])
      && c.config["owner"] == (if cfg["owner"] == VNone then VStr(host.getUser) else cfg["owner"])
      && c.owner == c.config["owner"] && c.owner != VNone
      && c.archive == cfg["archive_path"] && c.machineType == cfg["machine_type"]
      && c.osType == cfg["os_type"]
      && c.osVersion == (if "os_version" in cfg then cfg["os_version"] else VNone)
      && c.block == block
      && c.name == (if withName then Some(cfg["name"]) else None)
  {
    var owner :- Lookup(cfg, "owner");
    var config := if owner == VNone then cfg["owner" := VStr(host.getUser)] else cfg;
    var archive :- Lookup(config, "archive_path");
    var machineType :- Lookup(config, "machine_type");
    var osType :- Lookup(config, "os_type");
    var osVersion := Get(config, "os_version", VNone);
    var name :- if withName then (var n :- Lookup(config, "name"); Ok(Some(n))) else Ok(None);
    Ok(FakeContext(config, block, config["owner"], archive, machineType, osType, osVersion, name))
  }

  /** Building a fake context twice is the same as building it once: the
      owner default is applied at most once. */
  lemma FakeContextStable(cfg: Config, block: bool, withName: bool, host: Host)
    requires CreateFakeContext(cfg, block, withName, host).Ok?
    ensures var c := CreateFakeContext(cfg, block, withName, host).value;
      CreateFakeContext(c.config, block, withName, host) == Ok(c)
  {
  }

  // ---------------------------------------------------------------------
  // Fields derived by prep_job and the log paths

  /** `os.path.join(archive_dir, munge(name), str(job_id))`. */
  function JobArchivePath(archiveDir: string, safeName: string, idText: string): (p: string)
    ensures SimpleName(idText) ==> Basename(p) == idText
    ensures SimpleName(idText) && SimpleName(safeName) ==>
      |p| > |archiveDir| && p[..|archiveDir|] == archiveDir
  {
    JoinNameFacts(Join(archiveDir, safeName), idText);
    JoinNameFacts(archiveDir, safeName);
    Join(Join(archiveDir, safeName), idText)
  }

  /** `job_config.get('teuthology_branch', 'master')`. */
  function TeuthologyBranch(cfg: Config): Value {
    Get(cfg, "teuthology_branch", VStr("master"))
  }

  /** `job_config.get('suite_branch', job_config.get('branch', 'master'))`. */
  function SuiteBranch(cfg: Config): Value {
    Get(cfg, "suite_branch", Get(cfg, "branch", VStr("master")))
  }

  /** The suite branch is `suite_branch`, else `branch`, else master, and
      the fallback is taken on a missing key only: a key present with a None
      value is used as is, so the branch is None exactly when the key that
      decides it holds None. */
  lemma SuiteBranchFallback(cfg: Config)
    ensures SuiteBranch(cfg) == VNone <==>
      || ("suite_branch" in cfg && cfg["suite_branch"] == VNone)
      || ("suite_branch" !in cfg && "branch" in cfg && cfg["branch"] == VNone)
  {
  }

  /** `str(job_config['job_id'])`. */
  function JobIdText(cfg: Config): Result<string> {
    var id :- Lookup(cfg, "job_id");
    Str(id)
  }

  /** The supervisor's log file `<archive_path>/supervisor.<job_id>`. Both
      keys are read before `os.path.join` sees the archive path, so a
      missing or unprintable `job_id` is reported ahead of a non-string
      archive path. */
  function SupervisorLogPath(cfg: Config): (r: Result<string>)
    ensures r.Ok? <==> "archive_path" in cfg && cfg["archive_path"].VStr? && JobIdText(cfg).Ok?
    ensures "archive_path" !in cfg ==> r == Err(KeyError("archive_path"))
    ensures "archive_path" in cfg && JobIdText(cfg).Err? ==> r == Err(JobIdText(cfg).error)
    ensures ("archive_path" in cfg && JobIdText(cfg).Ok? && !cfg["archive_path"].VStr?) ==>
      r == Err(TypeError("archive_path is not a str"))
    ensures r.Ok? ==>
      var dir := cfg["archive_path"].s;
      var leaf := "supervisor." + JobIdText(cfg).value;
      && |r.value| > |dir| && r.value[..|dir|] == dir
      && (SimpleName(leaf) ==> Basename(r.value) == leaf)
  {
    var dirValue :- Lookup(cfg, "archive_path");
    var id :- JobIdText(cfg);
    if !dirValue.VStr? then Err(TypeError("archive_path is not a str"))
    else
      var dir := dirValue.s;
      var leaf := "supervisor." + id;
      JoinNameFacts(dir, leaf);
      Ok(Join(dir, leaf))
  }

  /** The worker's log file `<archive_dir>/<name>/worker.<job_id>`; the
      suite directory uses the raw job name, not its munged form. */
  function WorkerLogPath(archiveDir: string, cfg: Config): (r: Result<string>)
    ensures r.Ok? <==> "name" in cfg && cfg["name"].VStr? && JobIdText(cfg).Ok?
    ensures r.Ok? ==>
      var dir := Join(archiveDir, cfg["name"].s);
      var leaf := "worker." + JobIdText(cfg).value;
      && |r.value| > |dir| && r.value[..|dir|] == dir
      && (SimpleName(leaf) ==> Basename(r.value) == leaf)
  {
    var name :- LookupStr(cfg, "name");
    var dir := Join(archiveDir, name);
    var id :- JobIdText(cfg);
    var leaf := "worker." + id;
    JoinNameFacts(dir, leaf);
    Ok(Join(dir, leaf))
  }
}
