/** The machine lifecycle around a job: reimaging the targets before the
    run, the unlock-or-nuke decision after it, and the dispatcher's lock
    request. */
module Machines {
  import opened PyValues
  import opened Effects
  import opened JobConfig

  /** The supervisor (`dispatcher/supervisor.py`) and the older worker
      (`worker.py`) differ in small ways; this names the one in use. */
  datatype Variant = SupervisorVariant | WorkerVariant

  /** The supervisor's `create_fake_context` records the job name; the
      worker uses the dispatcher's, which does not. */
  predicate ContextWithName(v: Variant) { v.SupervisorVariant? }

  /** The status pushed once reimaging is over: the worker pushes `waiting`
      a second time where the supervisor pushes `running`. */
  function StatusAfterReimage(v: Variant): string {
    if v.SupervisorVariant? then "running" else "waiting"
  }

  // ---------------------------------------------------------------------
  // reimage_machines

  /** `reimage_machines(job_config)`: push `waiting`, reimage the targets,
      replace the `targets` entry wholesale with the result, push the
      variant's second status. `reimage` stands for `reimage_many`. */
  function ReimageMachines(cfg: Config, v: Variant, host: Host,
                           reimage: (FakeContext, Value, Value) -> Result<Value>): (r: Traced<Config>)
    ensures var ctx := CreateFakeContext(cfg, false, ContextWithName(v), host);
      r.result.Ok? <==> ctx.Ok? && "targets" in cfg && reimage(ctx.value, cfg["targets"], cfg["machine_type"]).Ok?
    ensures PushedStatuses(r.events) <= [VStr("waiting"), VStr(StatusAfterReimage(v))]
    ensures r.result.Ok? ==>
      var ctx := CreateFakeContext(cfg, false, ContextWithName(v), host).value;
      var reimaged := reimage(ctx, cfg["targets"], cfg["machine_type"]).value;
      && PushedStatuses(r.events) == [VStr("waiting"), VStr(StatusAfterReimage(v))]
      && |r.events| == 3 && r.events[1] == Reimage(ctx, cfg["targets"], cfg["machine_type"])
      && r.result.value.Keys == cfg.Keys
      && r.result.value["targets"] == reimaged
      && (forall k :: k in cfg && k != "targets" ==> r.result.value[k] == ctx.config[k])
  {
    match CreateFakeContext(cfg, false, ContextWithName(v), host)
    case Err(e) => Traced([], Err(e))
    case Ok(ctx) =>
      var waiting := Push(ctx.config, StatusFields("waiting"));
      match Lookup(ctx.config, "targets")
      case Err(e) =>
        ReimageStatuses(ctx, VNone, VNone, map[], StatusAfterReimage(v));
        Traced([waiting], Err(e))
      case Ok(targets) =>
        var machineType := ctx.config["machine_type"];
        var events := [waiting, Reimage(ctx, targets, machineType)];
        match reimage(ctx, targets, machineType)
        case Err(e) =>
          ReimageStatuses(ctx, targets, machineType, map[], StatusAfterReimage(v));
          Traced(events, Err(e))
        case Ok(reimaged) =>
          var updated := ctx.config["targets" := reimaged];
          TargetsReplaced(cfg, ctx.config, reimaged);
          ReimageStatuses(ctx, targets, machineType, updated, StatusAfterReimage(v));
          Traced(events + [Push(updated, StatusFields(StatusAfterReimage(v)))], Ok(updated))
  }

  lemma TargetsReplaced(cfg: Config, c: Config, v: Value)
    requires c.Keys == cfg.Keys && "targets" in cfg
    ensures var u := c["targets" := v];
      && u.Keys == cfg.Keys && u["targets"] == v
      && forall k :: k in cfg && k != "targets" ==> u[k] == c[k]
  {
  }

  /** The statuses pushed by each prefix of the reimaging trace. */
  lemma ReimageStatuses(ctx: FakeContext, targets: Value, machineType: Value, updated: Config, second: string)
    ensures var waiting := Push(ctx.config, StatusFields("waiting"));
      var events := [waiting, Reimage(ctx, targets, machineType)];
      && PushedStatuses([waiting]) == [VStr("waiting")]
      && PushedStatuses(events) == [VStr("waiting")]
      && PushedStatuses(events + [Push(updated, StatusFields(second))]) == [VStr("waiting"), VStr(second)]
  {
    var waiting := Push(ctx.config, StatusFields("waiting"));
    var events := [waiting, Reimage(ctx, targets, machineType)];
    var after := Push(updated, StatusFields(second));
    assert PushedStatuses([waiting]) == [VStr("waiting")];
    assert events[1..][1..] == [];
    assert PushedStatuses(events) == [VStr("waiting")];
    assert PushedStatuses([after]) == [VStr(second)];
    PushedStatusesAppend(events, [after]);
  }

  /** The worker never reports `running` while reimaging; the supervisor
      reports `waiting` and then `running`. */
  lemma ReimageStatusSequence(cfg: Config, host: Host, reimage: (FakeContext, Value, Value) -> Result<Value>)
    ensures var r := ReimageMachines(cfg, SupervisorVariant, host, reimage);
      r.result.Ok? ==> PushedStatuses(r.events) == [VStr("waiting"), VStr("running")]
    ensures var r := ReimageMachines(cfg, WorkerVariant, host, reimage);
      VStr("running") !in PushedStatuses(r.events)
  {
    var r := ReimageMachines(cfg, WorkerVariant, host, reimage);
    var s := PushedStatuses(r.events);
    assert s <= [VStr("waiting"), VStr("waiting")];
    assert forall k :: 0 <= k < |s| ==> s[k] == VStr("waiting");
  }

  // ---------------------------------------------------------------------
  // unlock_targets

  /** One row of `query.get_statuses`. */
  datatype MachineStatus = MachineStatus(name: string, locked: bool)

  /** The short names of the machines still locked, in the order reported. */
  function LockedHosts(statuses: seq<MachineStatus>, shortname: string -> string): (r: seq<string>)
    ensures |r| <= |statuses|
    ensures forall h :: h in r <==> exists k :: 0 <= k < |statuses| && statuses[k].locked && shortname(statuses[k].name) == h
  {
    if statuses == [] then []
    else
      var rest := LockedHosts(statuses[1..], shortname);
      assert forall k :: 1 <= k < |statuses| ==> statuses[k] == statuses[1..][k - 1];
      if statuses[0].locked then [shortname(statuses[0].name)] + rest else rest
  }

  const NukeKey := "nuke-on-error"

  /** The unlock condition: a passing job, or `unlock_on_failure` without
      the (hyphenated) `nuke-on-error`. */
  predicate WantsUnlock(status: Value, cfg: Config) {
    status == VStr("pass")
    || (Truthy(Get(cfg, "unlock_on_failure", VBool(false))) && !Truthy(Get(cfg, NukeKey, VBool(false))))
  }

  /** The nuke condition: a job that did not pass, with `nuke-on-error`. */
  predicate WantsNuke(status: Value, cfg: Config) {
    status != VStr("pass") && Truthy(Get(cfg, NukeKey, VBool(false)))
  }

  /** The hosts of the unlock calls in a trace, in order. */
  function UnlockedHosts(events: seq<Event>): seq<string> {
    if events == [] then []
    else (if events[0].Unlock? then [events[0].host] else []) + UnlockedHosts(events[1..])
  }

  function UnlockEvents(ctx: FakeContext, hosts: seq<string>, owner: Value, archivePath: Value): (r: seq<Event>)
    ensures |r| == |hosts|
    ensures UnlockedHosts(r) == hosts
    ensures forall k :: 0 <= k < |r| ==> r[k] == Unlock(ctx, hosts[k], owner, archivePath)
  {
    if hosts == [] then []
    else
      var rest := UnlockEvents(ctx, hosts[1..], owner, archivePath);
      assert ([Unlock(ctx, hosts[0], owner, archivePath)] + rest)[1..] == rest;
      [Unlock(ctx, hosts[0], owner, archivePath)] + rest
  }

  predicate IsNuke(e: Event) { e.Nuke? }
  predicate IsUnlock(e: Event) { e.Unlock? }

  /** `unlock_targets(job_config)`. `jobInfo` is the job's record as the
      results serializer returns it, `status` what `get_status` derives from
      it, and `statuses` what `query.get_statuses` reports for its targets.
      The result is the job config, whose owner the fake context may set. */
  function UnlockTargets(cfg: Config, jobInfo: Config, status: Value, statuses: seq<MachineStatus>, host: Host): (r: Traced<Config>)
    ensures "targets" !in jobInfo ==> r == Traced([], Err(KeyError("targets")))
    ensures "targets" in jobInfo && LockedHosts(statuses, host.shortname) == [] ==> r == Traced([], Ok(cfg))
    ensures r.result.Ok? && LockedHosts(statuses, host.shortname) != [] ==>
      && UnlockedHosts(r.events) == (if WantsUnlock(status, cfg) then LockedHosts(statuses, host.shortname) else [])
      && Count(r.events, IsNuke) == (if WantsNuke(status, cfg) then 1 else 0)
      && |r.events| == |UnlockedHosts(r.events)| + Count(r.events, IsNuke)
    ensures r.result.Ok? <==> ("targets" in jobInfo
      && (LockedHosts(statuses, host.shortname) == []
          || ((WantsUnlock(status, cfg) || WantsNuke(status, cfg) ==> ContextKeys(true) <= cfg.Keys)
              && (WantsUnlock(status, cfg) ==> "owner" in jobInfo && "archive_path" in jobInfo))))
    ensures "targets" in jobInfo && !WantsUnlock(status, cfg) && !WantsNuke(status, cfg) ==> r == Traced([], Ok(cfg))
  {
    if "targets" !in jobInfo then Traced([], Err(KeyError("targets")))
    else
      var locked := LockedHosts(statuses, host.shortname);
      if locked == [] then Traced([], Ok(cfg))
      else
        var unlock := UnlockStep(cfg, jobInfo, status, locked, host);
        if unlock.result.Err? then unlock
        else
          var config := unlock.result.value;
          if !WantsNuke(status, config) then unlock
          else
            match CreateFakeContext(config, false, true, host)
            case Err(e) => Traced(unlock.events, Err(e))
            case Ok(ctx) =>
              NukeStepCounts(unlock.events, ctx);
              Traced(unlock.events + [Nuke(ctx)], Ok(ctx.config))
  }

  /** The unlock half of `unlock_targets`, for a non-empty locked set. The
      fake context is only built when the job is to be unlocked; otherwise
      nothing happens and the config is left as it was. */
  function UnlockStep(cfg: Config, jobInfo: Config, status: Value, locked: seq<string>, host: Host): (r: Traced<Config>)
    requires locked != []
    ensures r.result.Ok? <==> (WantsUnlock(status, cfg) ==>
      ContextKeys(true) <= cfg.Keys && "owner" in jobInfo && "archive_path" in jobInfo)
    ensures !WantsUnlock(status, cfg) ==> r == Traced([], Ok(cfg))
    ensures r.result.Ok? ==>
      && r.result.value.Keys == cfg.Keys
      && (forall k :: k in cfg && k != "owner" ==> r.result.value[k] == cfg[k])
      && UnlockedHosts(r.events) == (if WantsUnlock(status, cfg) then locked else [])
      && |r.events| == |UnlockedHosts(r.events)|
      && Count(r.events, IsNuke) == 0
  {
    if !WantsUnlock(status, cfg) then Traced([], Ok(cfg))
    else
      match CreateFakeContext(cfg, false, true, host)
      case Err(e) => Traced([], Err(e))
      case Ok(ctx) =>
        if "owner" !in jobInfo then Traced([], Err(KeyError("owner")))
        else if "archive_path" !in jobInfo then Traced([], Err(KeyError("archive_path")))
        else
          var events := UnlockEvents(ctx, locked, jobInfo["owner"], jobInfo["archive_path"]);
          CountNone(events, IsNuke);
          Traced(events, Ok(ctx.config))
  }

  lemma NukeStepCounts(events: seq<Event>, ctx: FakeContext)
    requires Count(events, IsNuke) == 0 && |events| == |UnlockedHosts(events)|
    ensures UnlockedHosts(events + [Nuke(ctx)]) == UnlockedHosts(events)
    ensures Count(events + [Nuke(ctx)], IsNuke) == 1
  {
    CountAppend(events, [Nuke(ctx)], IsNuke);
    UnlockedHostsAppend(events, [Nuke(ctx)]);
  }

  lemma {:induction false} UnlockedHostsAppend(a: seq<Event>, b: seq<Event>)
    ensures UnlockedHosts(a + b) == UnlockedHosts(a) + UnlockedHosts(b)
    decreases |a|
  {
    if a == [] {
      assert a + b == b;
    } else {
      assert (a + b)[0] == a[0];
      assert (a + b)[1..] == a[1..] + b;
      UnlockedHostsAppend(a[1..], b);
    }
  }

  /** Unlocking and nuking are never both chosen. */
  lemma UnlockNukeExclusive(status: Value, cfg: Config)
    ensures !(WantsUnlock(status, cfg) && WantsNuke(status, cfg))
  {
  }

  /** The decision table, for all four combinations of a passing status and
      the two flags. */
  lemma DecisionTable(status: Value, cfg: Config)
    ensures var pass := status == VStr("pass");
      var unlockOnFailure := Truthy(Get(cfg, "unlock_on_failure", VBool(false)));
      var nukeOnError := Truthy(Get(cfg, NukeKey, VBool(false)));
      && (pass ==> WantsUnlock(status, cfg) && !WantsNuke(status, cfg))
      && (!pass && unlockOnFailure && !nukeOnError ==> WantsUnlock(status, cfg) && !WantsNuke(status, cfg))
      && (!pass && nukeOnError ==> !WantsUnlock(status, cfg) && WantsNuke(status, cfg))
      && (!pass && !unlockOnFailure && !nukeOnError ==> !WantsUnlock(status, cfg) && !WantsNuke(status, cfg))
  {
  }

  /** A failed job with `unlock_on_failure`, without `nuke-on-error`, and
      with both targets still locked: two unlock calls, in order, and no
      nuke. */
  lemma UnlockOnFailureScenario(cfg: Config, jobInfo: Config, host: Host)
    requires ContextKeys(true) <= cfg.Keys
    requires "unlock_on_failure" in cfg && cfg["unlock_on_failure"] == VBool(true) && NukeKey !in cfg
    requires {"targets", "owner", "archive_path"} <= jobInfo.Keys
    requires host.shortname("a") == "a" && host.shortname("b") == "b"
    ensures var r := UnlockTargets(cfg, jobInfo, VStr("fail"), [MachineStatus("a", true), MachineStatus("b", true)], host);
      r.result.Ok? && UnlockedHosts(r.events) == ["a", "b"] && Count(r.events, IsNuke) == 0
  {
    var statuses := [MachineStatus("a", true), MachineStatus("b", true)];
    assert LockedHosts(statuses[1..][1..], host.shortname) == [];
    assert LockedHosts(statuses[1..], host.shortname) == ["b"];
    assert LockedHosts(statuses, host.shortname) == ["a", "b"];
  }

  /** A failed job whose config spells the flag `nuke_on_error` is neither
      nuked nor unlocked: the code reads the hyphenated key. */
  lemma UnderscoreNukeFlagIgnored(cfg: Config, status: Value)
    requires status != VStr("pass")
    requires "nuke_on_error" in cfg && Truthy(cfg["nuke_on_error"])
    requires NukeKey !in cfg && "unlock_on_failure" !in cfg
    ensures !WantsNuke(status, cfg) && !WantsUnlock(status, cfg)
  {
  }

  // ---------------------------------------------------------------------
  // The dispatcher's lock_machines

  /** Machines are locked only for a job that is not a suite boundary and
      lists `roles`. */
  predicate NeedsLock(cfg: Config) {
    !IsBoundary(cfg) && "roles" in cfg
  }

  /** `lock_machines(job_config)`: request `len(roles)` machines of the job's
      machine type with a blocking fake context. `lockHelper` stands for
      `lock_machines_helper` and returns the context's updated config. */
  function LockMachines(cfg: Config, host: Host, lockHelper: (FakeContext, nat, Value) -> Config): (r: Traced<Config>)
    ensures r.result.Ok? <==> ContextKeys(false) <= cfg.Keys && "roles" in cfg && Len(cfg["roles"]).Ok?
    ensures r.result.Ok? ==>
      var ctx := CreateFakeContext(cfg, true, false, host).value;
      && ctx.block
      && r.events == [Lock(ctx, Len(cfg["roles"]).value, cfg["machine_type"])]
      && r.result.value == lockHelper(ctx, Len(cfg["roles"]).value, cfg["machine_type"])
    ensures r.result.Err? ==> r.events == []
  {
    match CreateFakeContext(cfg, true, false, host)
    case Err(e) => Traced([], Err(e))
    case Ok(ctx) =>
      match Lookup(ctx.config, "roles")
      case Err(e) => Traced([], Err(e))
      case Ok(roles) =>
        match Len(roles)
        case Err(e) => Traced([], Err(e))
        case Ok(count) =>
          var machineType := ctx.config["machine_type"];
          Traced([Lock(ctx, count, machineType)], Ok(lockHelper(ctx, count, machineType)))
  }
}
