/** Archive transfer before a kill: every log phase the job record lists is
    pulled from every remote into the job's archive, under
    `<archive_path>/remote/<host>/<phase>`, with the `init` phase landing in
    the host's own directory. The supervisor loops over phases and tolerates
    read errors; the older worker loops over remotes and tolerates nothing. */
module Archive {
  import opened PyValues
  import opened Paths
  import opened Effects
  import opened JobConfig

  /** One item of the job record's `archive` dict, in its iteration order:
      the log phase and the remote directory that holds its logs. */
  datatype Phase = Phase(kind: string, remotePath: string)

  /** How one `pull_directory` call ends. */
  datatype PullOutcome = Pulled | PullError(error: Error)

  /** What `pull_directory(remote, remote_path, local_path)` reports for a
      requested pull (a `Pull` event). */
  type Puller = Event -> PullOutcome

  const InitPhase := "init"

  /** The per-host subdirectory of a phase: `init` maps to the host's root. */
  function PhaseSubdir(kind: string): string {
    if kind == InitPhase then "" else kind
  }

  /** `<archive>/remote`, the root of all pulled logs. */
  function RemoteRoot(archive: string): string {
    Join(archive, "remote")
  }

  /** Where one phase's logs from one host land. */
  function Destination(root: string, remote: string, kind: string): string {
    Join(Join(root, remote), PhaseSubdir(kind))
  }

  /** The `init` phase lands in the host directory itself (an empty last
      component); any other plain phase name lands in a subdirectory of that
      name, so two different phases never share a destination. */
  lemma DestinationLayout(root: string, remote: string, kind: string, other: string)
    ensures var hostDir := Join(root, remote);
      && (kind == InitPhase ==>
            Basename(Destination(root, remote, kind)) == []
            && Destination(root, remote, kind)[..|hostDir|] == hostDir)
      && (SimpleName(kind) && kind != InitPhase ==>
            Basename(Destination(root, remote, kind)) == kind
            && |Destination(root, remote, kind)| > |hostDir|
            && Destination(root, remote, kind)[..|hostDir|] == hostDir)
      && ((SimpleName(kind) && SimpleName(other) && kind != InitPhase && other != InitPhase
           && Destination(root, remote, kind) == Destination(root, remote, other)) ==> kind == other)
  {
    var hostDir := Join(root, remote);
    JoinNameFacts(hostDir, kind);
    JoinNameFacts(hostDir, other);
  }

  predicate IsPull(e: Event) { e.Pull? }
  predicate IsCompress(e: Event) { e.Compress? }

  // ---------------------------------------------------------------------
  // The supervisor: archive_logs and transfer_archives

  /** A pull failure the supervisor does not swallow. */
  predicate Fatal(o: PullOutcome) {
    o.PullError? && !o.error.ReadError?
  }

  /** The pull of one phase's logs from one remote, into the phase's
      directory for that host under `root`. */
  function PullEvent(root: string, remote: string, phase: Phase): Event {
    Pull(remote, phase.remotePath, root, phase.kind)
  }

  /** The `local_path` argument of a pull. */
  function LocalPath(e: Event): string
    requires e.Pull?
  {
    Destination(e.archiveRoot, e.remote, e.phaseKind)
  }

  function Outcome(pull: Puller, root: string, remote: string, phase: Phase): PullOutcome {
    pull(PullEvent(root, remote, phase))
  }

  /** `archive_logs(ctx, remote_path, log_path)`: pull one phase from every
      remote in turn. A `ReadError` is ignored and the next remote is still
      pulled; any other failure ends the transfer. */
  function ArchiveLogs(root: string, remotes: seq<string>, phase: Phase, pull: Puller): (r: Traced<()>)
    ensures r.result.Ok? <==> forall k :: 0 <= k < |remotes| ==> !Fatal(Outcome(pull, root, remotes[k], phase))
    ensures r.result.Ok? ==> |r.events| == |remotes|
    ensures |r.events| <= |remotes|
    ensures r.events == PhasePulls(root, remotes[..|r.events|], phase)
    ensures r.result.Err? ==> |r.events| >= 1
  {
    if remotes == [] then Traced([], Ok(()))
    else
      var event := PullEvent(root, remotes[0], phase);
      var outcome := Outcome(pull, root, remotes[0], phase);
      if Fatal(outcome) then Traced([event], Err(outcome.error))
      else
        var rest := ArchiveLogs(root, remotes[1..], phase, pull);
        PhasePullsCons(root, remotes, phase, |rest.events|);
        NoFatalStep(root, remotes, phase, pull);
        Traced([event] + rest.events, rest.result)
  }

  lemma PhasePullsCons(root: string, remotes: seq<string>, phase: Phase, n: nat)
    requires n < |remotes|
    ensures [PullEvent(root, remotes[0], phase)] + PhasePulls(root, remotes[1..][..n], phase)
      == PhasePulls(root, remotes[..n + 1], phase)
    ensures n > 0 ==> remotes[1..][n - 1] == remotes[n]
  {
    var all := [PullEvent(root, remotes[0], phase)] + PhasePulls(root, remotes[1..][..n], phase);
    forall k | 1 <= k < |all| ensures all[k] == PullEvent(root, remotes[k], phase) {
      assert remotes[1..][..n][k - 1] == remotes[k];
    }
  }

  lemma NoFatalStep(root: string, remotes: seq<string>, phase: Phase, pull: Puller)
    requires remotes != []
    ensures (forall k :: 0 <= k < |remotes| ==> !Fatal(Outcome(pull, root, remotes[k], phase))) <==>
      !Fatal(Outcome(pull, root, remotes[0], phase)) &&
      forall k :: 0 <= k < |remotes[1..]| ==> !Fatal(Outcome(pull, root, remotes[1..][k], phase))
  {
    if forall k :: 0 <= k < |remotes| ==> !Fatal(Outcome(pull, root, remotes[k], phase)) {
      forall k | 0 <= k < |remotes[1..]| ensures !Fatal(Outcome(pull, root, remotes[1..][k], phase)) {
        assert remotes[1..][k] == remotes[k + 1];
      }
    }
    if !Fatal(Outcome(pull, root, remotes[0], phase)) &&
       forall k :: 0 <= k < |remotes[1..]| ==> !Fatal(Outcome(pull, root, remotes[1..][k], phase)) {
      forall k | 1 <= k < |remotes| ensures !Fatal(Outcome(pull, root, remotes[k], phase)) {
        assert remotes[k] == remotes[1..][k - 1];
      }
    }
  }

  /** A failed phase stops at the remote whose pull failed fatally, and
      reports that pull's error. */
  lemma {:induction false} ArchiveLogsFailure(root: string, remotes: seq<string>, phase: Phase, pull: Puller)
    requires ArchiveLogs(root, remotes, phase, pull).result.Err?
    ensures var r := ArchiveLogs(root, remotes, phase, pull);
      && |r.events| >= 1
      && (forall k :: 0 <= k < |r.events| - 1 ==> !Fatal(Outcome(pull, root, remotes[k], phase)))
      && var last := Outcome(pull, root, remotes[|r.events| - 1], phase);
         Fatal(last) && r.result == Err(last.error)
    decreases |remotes|
  {
    var outcome := Outcome(pull, root, remotes[0], phase);
    if !Fatal(outcome) {
      var rest := ArchiveLogs(root, remotes[1..], phase, pull);
      ArchiveLogsFailure(root, remotes[1..], phase, pull);
      var n := |rest.events|;
      assert remotes[1..][n - 1] == remotes[n];
      assert |ArchiveLogs(root, remotes, phase, pull).events| == n + 1;
      forall k | 0 <= k < n ensures !Fatal(Outcome(pull, root, remotes[k], phase)) {
        if k > 0 { assert remotes[k] == remotes[1..][k - 1]; }
      }
    }
  }

  /** Every remote is pulled for a phase, in order, whichever of them report
      a read error, as long as none fails otherwise. */
  lemma ReadErrorDoesNotStopOthers(root: string, remotes: seq<string>, phase: Phase, pull: Puller)
    requires forall k :: 0 <= k < |remotes| ==>
      Outcome(pull, root, remotes[k], phase).Pulled? || Outcome(pull, root, remotes[k], phase).error.ReadError?
    ensures var r := ArchiveLogs(root, remotes, phase, pull);
      r.result.Ok? && |r.events| == |remotes|
      && forall k :: 0 <= k < |remotes| ==> r.events[k] == PullEvent(root, remotes[k], phase)
  {
  }

  /** The phase loop of the supervisor's `transfer_archives`: compress the
      phase's logs on the remotes, then pull them. */
  function TransferPhases(root: string, phases: seq<Phase>, remotes: seq<string>, pull: Puller): (r: Traced<()>)
    ensures r.result.Ok? <==> forall i, k :: 0 <= i < |phases| && 0 <= k < |remotes| ==>
      !Fatal(Outcome(pull, root, remotes[k], phases[i]))
  {
    if phases == [] then Traced([], Ok(()))
    else
      var p := phases[0];
      var logs := ArchiveLogs(root, remotes, p, pull);
      var head := [Compress(p.remotePath)] + logs.events;
      if logs.result.Err? then
        Traced(head, logs.result)
      else
        var rest := TransferPhases(root, phases[1..], remotes, pull);
        assert forall i :: 1 <= i < |phases| ==> phases[i] == phases[1..][i - 1];
        Traced(head + rest.events, rest.result)
  }

  lemma PhaseCounts(p: Phase, pulls: seq<Event>, rest: seq<Event>)
    requires forall k :: 0 <= k < |pulls| ==> pulls[k].Pull?
    ensures Count([Compress(p.remotePath)] + pulls + rest, IsCompress) == 1 + Count(rest, IsCompress)
    ensures Count([Compress(p.remotePath)] + pulls + rest, IsPull) == |pulls| + Count(rest, IsPull)
  {
    var head := [Compress(p.remotePath)];
    CountAppend(head + pulls, rest, IsCompress);
    CountAppend(head, pulls, IsCompress);
    CountNone(pulls, IsCompress);
    CountAppend(head + pulls, rest, IsPull);
    CountAppend(head, pulls, IsPull);
    CountAll(pulls, IsPull);
  }

  lemma {:induction false} CountAll(a: seq<Event>, p: Event -> bool)
    requires forall k :: 0 <= k < |a| ==> p(a[k])
    ensures Count(a, p) == |a|
    decreases |a|
  {
    if a != [] {
      CountAll(a[1..], p);
    }
  }

  /** The supervisor's `transfer_archives`. `record` is the `archive` entry
      of the job record (None when the record has no such key), `remotes`
      the short names `add_remotes` finds for the job's targets. The result
      is the job config as the fake context leaves it. The context's archive
      path is first joined inside `archive_logs`, so a non-string one raises
      only once a phase has compressed its logs, and not at all when the
      record lists no phase. */
  function SupervisorTransfer(cfg: Config, record: Option<seq<Phase>>, remotes: seq<string>,
                              pull: Puller, host: Host): (r: Traced<Config>)
    ensures record.None? ==> r == Traced([], Ok(cfg))
    ensures record.Some? ==>
      var ctx := CreateFakeContext(cfg, false, true, host);
      (r.result.Ok? <==>
        && ctx.Ok? && (|record.value| == 0 || ctx.value.archive.VStr?)
        && (ctx.value.archive.VStr? ==>
              forall i, k :: 0 <= i < |record.value| && 0 <= k < |remotes| ==>
                !Fatal(Outcome(pull, RemoteRoot(ctx.value.archive.s), remotes[k], record.value[i]))))
    ensures (record.Some? && |record.value| > 0 && CreateFakeContext(cfg, false, true, host).Ok?
             && !CreateFakeContext(cfg, false, true, host).value.archive.VStr?) ==>
      r == Traced([Compress(record.value[0].remotePath)], Err(TypeError("archive_path")))
    ensures record.Some? && r.result.Ok? ==>
      && r.result.value == CreateFakeContext(cfg, false, true, host).value.config
      && Count(r.events, IsCompress) == |record.value|
      && Count(r.events, IsPull) == |record.value| * |remotes|
  {
    match record
    case None => Traced([], Ok(cfg))
    case Some(phases) =>
      match CreateFakeContext(cfg, false, true, host)
      case Err(e) => Traced([], Err(e))
      case Ok(ctx) =>
        if !ctx.archive.VStr? then
          if phases == [] then Traced([], Ok(ctx.config))
          else Traced([Compress(phases[0].remotePath)], Err(TypeError("archive_path")))
        else
          var t := TransferPhases(RemoteRoot(ctx.archive.s), phases, remotes, pull);
          if t.result.Ok? then
            TransferCounts(RemoteRoot(ctx.archive.s), phases, remotes, pull);
            Traced(t.events, Ok(ctx.config))
          else Traced(t.events, Err(t.result.error))
  }

  // ---------------------------------------------------------------------
  // The worker: transfer_archives

  /** One remote in the worker's loop: every phase in turn, stopping at the
      first failed pull, read errors included. */
  function PullHost(root: string, remote: string, phases: seq<Phase>, pull: Puller): (r: Traced<()>)
    ensures r.result.Ok? <==> forall i :: 0 <= i < |phases| ==> Outcome(pull, root, remote, phases[i]).Pulled?
    ensures r.result.Ok? ==> |r.events| == |phases|
    ensures |r.events| <= |phases|
    ensures forall i :: 0 <= i < |r.events| ==> r.events[i] == PullEvent(root, remote, phases[i])
  {
    if phases == [] then Traced([], Ok(()))
    else
      var event := PullEvent(root, remote, phases[0]);
      match Outcome(pull, root, remote, phases[0])
      case PullError(e) => Traced([event], Err(e))
      case Pulled =>
        var rest := PullHost(root, remote, phases[1..], pull);
        PullHostStep(root, remote, phases, pull, rest.events);
        Traced([event] + rest.events, rest.result)
  }

  lemma PullHostStep(root: string, remote: string, phases: seq<Phase>, pull: Puller, rest: seq<Event>)
    requires phases != [] && |rest| < |phases|
    requires forall i :: 0 <= i < |rest| ==> rest[i] == PullEvent(root, remote, phases[1..][i])
    ensures var all := [PullEvent(root, remote, phases[0])] + rest;
      forall i :: 0 <= i < |all| ==> all[i] == PullEvent(root, remote, phases[i])
    ensures (forall i :: 0 <= i < |phases| ==> Outcome(pull, root, remote, phases[i]).Pulled?) <==>
      Outcome(pull, root, remote, phases[0]).Pulled? &&
      forall i :: 0 <= i < |phases[1..]| ==> Outcome(pull, root, remote, phases[1..][i]).Pulled?
  {
    var all := [PullEvent(root, remote, phases[0])] + rest;
    forall i | 1 <= i < |all| ensures all[i] == PullEvent(root, remote, phases[i]) {
      assert all[i] == rest[i - 1];
      assert phases[1..][i - 1] == phases[i];
    }
    if Outcome(pull, root, remote, phases[0]).Pulled? &&
       forall i :: 0 <= i < |phases[1..]| ==> Outcome(pull, root, remote, phases[1..][i]).Pulled? {
      forall i | 1 <= i < |phases| ensures Outcome(pull, root, remote, phases[i]).Pulled? {
        assert phases[i] == phases[1..][i - 1];
      }
    }
  }

  /** The worker's loop over remotes, each pulling every phase. */
  function PullHosts(root: string, remotes: seq<string>, phases: seq<Phase>, pull: Puller): (r: Traced<()>)
    ensures r.result.Ok? <==> forall k, i :: 0 <= k < |remotes| && 0 <= i < |phases| ==>
      Outcome(pull, root, remotes[k], phases[i]).Pulled?
    ensures r.result.Ok? ==> |r.events| == |remotes| * |phases|
    ensures forall k :: 0 <= k < |r.events| ==> r.events[k].Pull?
  {
    if remotes == [] then Traced([], Ok(()))
    else
      var first := PullHost(root, remotes[0], phases, pull);
      if first.result.Err? then first
      else
        var rest := PullHosts(root, remotes[1..], phases, pull);
        assert forall k :: 1 <= k < |remotes| ==> remotes[k] == remotes[1..][k - 1];
        MulStep(|remotes|, |phases|);
        var events := first.events + rest.events;
        Traced(events, rest.result)
  }

  lemma MulStep(n: nat, m: nat)
    requires n > 0
    ensures n * m == m + (n - 1) * m
  {
  }

  /** The worker's `transfer_archives`, with the dispatcher's fake context
      (no name) and the archive root taken from the job config. */
  function WorkerTransfer(cfg: Config, record: Option<seq<Phase>>, remotes: seq<string>,
                          pull: Puller, host: Host): (r: Traced<Config>)
    ensures record.None? ==> r == Traced([], Ok(cfg))
    ensures record.Some? ==>
      var ctx := CreateFakeContext(cfg, false, false, host);
      (r.result.Ok? <==>
        && ctx.Ok? && cfg["archive_path"].VStr?
        && forall k, i :: 0 <= k < |remotes| && 0 <= i < |record.value| ==>
             Outcome(pull, RemoteRoot(cfg["archive_path"].s), remotes[k], record.value[i]).Pulled?)
    ensures record.Some? && r.result.Ok? ==>
      && r.result.value == CreateFakeContext(cfg, false, false, host).value.config
      && Count(r.events, IsCompress) == 0
      && Count(r.events, IsPull) == |r.events| == |remotes| * |record.value|
  {
    match record
    case None => Traced([], Ok(cfg))
    case Some(phases) =>
      match CreateFakeContext(cfg, false, false, host)
      case Err(e) => Traced([], Err(e))
      case Ok(ctx) =>
        match LookupStr(ctx.config, "archive_path")
        case Err(e) => Traced([], Err(e))
        case Ok(archive) =>
          var t := PullHosts(RemoteRoot(archive), remotes, phases, pull);
          CountNone(t.events, IsCompress);
          CountAll(t.events, IsPull);
          Traced(t.events, if t.result.Ok? then Ok(ctx.config) else Err(t.result.error))
  }

  /** In the worker a read error from the first pull ends the transfer: no
      other remote and no other phase is pulled. */
  lemma WorkerReadErrorStops(root: string, remotes: seq<string>, phases: seq<Phase>, pull: Puller, e: Error)
    requires remotes != [] && phases != []
    requires e.ReadError? && Outcome(pull, root, remotes[0], phases[0]) == PullError(e)
    ensures PullHosts(root, remotes, phases, pull) == Traced([PullEvent(root, remotes[0], phases[0])], Err(e))
  {
  }

  /** Two remotes and two phases: the supervisor compresses and pulls
      phase by phase (see `TransferSchedule` for when it follows this). */
  lemma SupervisorOrder(root: string, a: string, b: string, p: Phase, q: Phase)
    ensures SupervisorSchedule(root, [p, q], [a, b]) ==
      [Compress(p.remotePath), PullEvent(root, a, p), PullEvent(root, b, p),
       Compress(q.remotePath), PullEvent(root, a, q), PullEvent(root, b, q)]
  {
    assert [p, q][1..] == [q];
    assert [q][1..] == [];
    var pp := PhasePulls(root, [a, b], p);
    var pq := PhasePulls(root, [a, b], q);
    assert pp == [pp[0], pp[1]];
    assert pq == [pq[0], pq[1]];
    assert SupervisorSchedule(root, [q], [a, b]) == [Compress(q.remotePath)] + pq + [];
    Regroup(Compress(p.remotePath), pp[0], pp[1], Compress(q.remotePath), pq[0], pq[1]);
  }

  lemma Regroup(x: Event, y1: Event, y2: Event, z: Event, w1: Event, w2: Event)
    ensures [x] + [y1, y2] + ([z] + [w1, w2] + []) == [x, y1, y2, z, w1, w2]
  {
  }

  /** The pulls of one phase from every remote, in the remotes' order. */
  function PhasePulls(root: string, remotes: seq<string>, phase: Phase): seq<Event> {
    seq(|remotes|, k requires 0 <= k < |remotes| => PullEvent(root, remotes[k], phase))
  }

  /** What the supervisor should do when no pull fails: for each phase, a
      compress and then the pulls from every remote. */
  function SupervisorSchedule(root: string, phases: seq<Phase>, remotes: seq<string>): seq<Event>
    decreases |phases|
  {
    if phases == [] then []
    else
      [Compress(phases[0].remotePath)] + PhasePulls(root, remotes, phases[0])
      + SupervisorSchedule(root, phases[1..], remotes)
  }

  /** When no pull fails otherwise than with a read error, the supervisor's
      transfer succeeds and follows the schedule exactly. */
  lemma {:induction false} TransferSchedule(root: string, phases: seq<Phase>, remotes: seq<string>, pull: Puller)
    requires forall i, k :: 0 <= i < |phases| && 0 <= k < |remotes| ==>
      !Fatal(Outcome(pull, root, remotes[k], phases[i]))
    ensures TransferPhases(root, phases, remotes, pull) == Traced(SupervisorSchedule(root, phases, remotes), Ok(()))
    decreases |phases|
  {
    if phases != [] {
      var logs := ArchiveLogs(root, remotes, phases[0], pull);
      assert logs.result.Ok?;
      assert logs.events == PhasePulls(root, remotes, phases[0]);
      forall i, k | 0 <= i < |phases[1..]| && 0 <= k < |remotes|
        ensures !Fatal(Outcome(pull, root, remotes[k], phases[1..][i]))
      {
        assert phases[1..][i] == phases[i + 1];
      }
      TransferSchedule(root, phases[1..], remotes, pull);
    }
  }

  /** A schedule holds one compress per phase and one pull per phase and
      remote, and nothing else. */
  lemma {:induction false} ScheduleCounts(root: string, phases: seq<Phase>, remotes: seq<string>)
    ensures var s := SupervisorSchedule(root, phases, remotes);
      && Count(s, IsCompress) == |phases|
      && Count(s, IsPull) == |phases| * |remotes|
      && |s| == |phases| * (1 + |remotes|)
    decreases |phases|
  {
    if phases != [] {
      var p := phases[0];
      ScheduleCounts(root, phases[1..], remotes);
      PhaseCounts(p, PhasePulls(root, remotes, p), SupervisorSchedule(root, phases[1..], remotes));
      MulStep(|phases|, |remotes|);
      MulStep(|phases|, 1 + |remotes|);
    }
  }

  /** A transfer that succeeds compressed every phase once and pulled every
      phase from every remote once. */
  lemma TransferCounts(root: string, phases: seq<Phase>, remotes: seq<string>, pull: Puller)
    requires TransferPhases(root, phases, remotes, pull).result.Ok?
    ensures var r := TransferPhases(root, phases, remotes, pull);
      && Count(r.events, IsCompress) == |phases|
      && Count(r.events, IsPull) == |phases| * |remotes|
      && |r.events| == |phases| * (1 + |remotes|)
  {
    TransferSchedule(root, phases, remotes, pull);
    ScheduleCounts(root, phases, remotes);
  }

  /** The pulls of every phase from one remote, in the phases' order. */
  function HostPulls(root: string, remote: string, phases: seq<Phase>): seq<Event> {
    seq(|phases|, i requires 0 <= i < |phases| => PullEvent(root, remote, phases[i]))
  }

  /** What the worker should do when every pull succeeds: host by host, each
      host's phases in order. */
  function WorkerSchedule(root: string, remotes: seq<string>, phases: seq<Phase>): seq<Event>
    decreases |remotes|
  {
    if remotes == [] then []
    else HostPulls(root, remotes[0], phases) + WorkerSchedule(root, remotes[1..], phases)
  }

  /** When every pull succeeds, the worker's transfer succeeds and follows
      its schedule exactly. */
  lemma {:induction false} PullHostsSchedule(root: string, remotes: seq<string>, phases: seq<Phase>, pull: Puller)
    requires forall k, i :: 0 <= k < |remotes| && 0 <= i < |phases| ==>
      Outcome(pull, root, remotes[k], phases[i]).Pulled?
    ensures PullHosts(root, remotes, phases, pull) == Traced(WorkerSchedule(root, remotes, phases), Ok(()))
    decreases |remotes|
  {
    if remotes != [] {
      var first := PullHost(root, remotes[0], phases, pull);
      assert first.result.Ok?;
      assert first.events == HostPulls(root, remotes[0], phases);
      forall k, i | 0 <= k < |remotes[1..]| && 0 <= i < |phases|
        ensures Outcome(pull, root, remotes[1..][k], phases[i]).Pulled?
      {
        assert remotes[1..][k] == remotes[k + 1];
      }
      PullHostsSchedule(root, remotes[1..], phases, pull);
    }
  }

  /** The same two remotes and two phases in the worker: host by host (see
      `PullHostsSchedule`). */
  lemma WorkerOrder(root: string, a: string, b: string, p: Phase, q: Phase)
    ensures WorkerSchedule(root, [a, b], [p, q]) ==
      [PullEvent(root, a, p), PullEvent(root, a, q), PullEvent(root, b, p), PullEvent(root, b, q)]
  {
    assert [a, b][1..] == [b];
    assert [b][1..] == [];
    var ha := HostPulls(root, a, [p, q]);
    var hb := HostPulls(root, b, [p, q]);
    assert ha == [ha[0], ha[1]];
    assert hb == [hb[0], hb[1]];
    assert WorkerSchedule(root, [b], [p, q]) == hb + [];
    Regroup2(ha[0], ha[1], hb[0], hb[1]);
  }

  lemma Regroup2(x1: Event, x2: Event, y1: Event, y2: Event)
    ensures [x1, x2] + ([y1, y2] + []) == [x1, x2, y1, y2]
  {
  }
}
