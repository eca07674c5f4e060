/** Readiness observations of the lookup source: overlapping probes, of which only the latest-started one counts. */
module Reconciliations {
  import opened Results
  import opened Types
  import opened Readers
  import opened Runners
  import opened HostRuns

  /** Why lookups are or are not available; `ProbeReason` is any refusal a probe itself reports. */
  datatype Reason =
    | NotChecked
    | Checking
    | Reconciled
    | ProbeAborted
    | ProbeReason(text: string)
    | ReaderChanged
    | ObservationExpired

  datatype ProbeResult = ProbeResult(reachable: bool, reason: Reason, aborted: bool)

  /** What a started probe remembers across its network calls. */
  datatype Probe = Probe(revision: nat, captured: Option<LookupTarget>)

  datatype Observation = Observation(target: Option<LookupTarget>, reachable: bool, reason: Reason, revision: nat)

  const UNOBSERVED := Observation(None, false, NotChecked, 0)

  function Begun(o: Observation, target: Option<LookupTarget>): (Observation, Probe) {
    (o.(revision := o.revision + 1, reason := Checking, target := None), Probe(o.revision + 1, target))
  }

  function Finished(o: Observation, probe: Probe, result: ProbeResult): Observation {
    if probe.revision != o.revision then o
    else o.(target := probe.captured, reachable := result.reachable,
            reason := if result.aborted then ProbeAborted else result.reason)
  }

  predicate Matches(a: Option<LookupTarget>, b: Option<LookupTarget>) {
    a.Some? && a == b
  }

  function StatusOf(o: Observation, target: Option<LookupTarget>, expired: bool): Reason {
    if o.reason != Reconciled then o.reason
    else if !Matches(target, o.target) then ReaderChanged
    else if expired then ObservationExpired
    else Reconciled
  }

  /** A check is split where it awaits the probe; `Begin` and `Finish` are its two halves. */
  class KupoReconciliation {
    var target: Option<LookupTarget>
    var reachable: bool
    var reason: Reason
    var revision: nat

    function View(): Observation
      reads this
    {
      Observation(target, reachable, reason, revision)
    }

    constructor ()
      ensures View() == UNOBSERVED
    {
      target, reachable, reason, revision := None, false, NotChecked, 0;
    }

    method Begin(current: Option<LookupTarget>) returns (probe: Probe)
      modifies this
      ensures (View(), probe) == Begun(old(View()), current)
    {
      revision := revision + 1;
      reason := Checking;
      target := None;
      return Probe(revision, current);
    }

    method Finish(probe: Probe, result: ProbeResult)
      modifies this
      ensures View() == Finished(old(View()), probe, result)
    {
      if probe.revision != revision {
        return;
      }
      target := probe.captured;
      reachable := result.reachable;
      reason := if result.aborted then ProbeAborted else result.reason;
    }

    method Status(current: Option<LookupTarget>, expired: bool) returns (r: Reason)
      ensures r == StatusOf(View(), current, expired)
      ensures r == Reconciled ==> current.Some? && current == target && !expired
    {
      if reason != Reconciled {
        return reason;
      }
      if !Matches(current, target) {
        return ReaderChanged;
      }
      return if expired then ObservationExpired else Reconciled;
    }
  }

  /** A started probe together with the host it looked at. */
  datatype Started = Started(probe: Probe, host: Host)

  /** One process: its host, its observation, and every probe it has started. */
  datatype World = World(host: Host, observation: Observation, started: seq<Started>)

  /** Host events, probes starting, and any started probe finishing, in any interleaving. */
  datatype WorldOp = HostDoes(op: HostOp) | BeginProbe | FinishProbe(which: nat, result: ProbeResult)

  function WorldStep(w: World, op: WorldOp, c: HostConfig): World {
    match op
    case HostDoes(hostOp) =>
      var next := HostRuns.Step(w.host, hostOp, c);
      if hostOp.Crash? then World(next, UNOBSERVED, []) else w.(host := next)
    case BeginProbe =>
      var (o, probe) := Begun(w.observation, Lookup(w.host));
      World(w.host, o, w.started + [Started(probe, w.host)])
    case FinishProbe(which, result) =>
      if which < |w.started| then w.(observation := Finished(w.observation, w.started[which].probe, result)) else w
  }

  function RunWorld(ops: seq<WorldOp>, c: HostConfig): World {
    if ops == [] then World(InitialHost(c), UNOBSERVED, [])
    else WorldStep(RunWorld(ops[..|ops| - 1], c), ops[|ops| - 1], c)
  }

  /** Probes are numbered in starting order, and a recorded target is the one that the last of them captured. */
  ghost predicate WorldInv(w: World, c: HostConfig) {
    && HostInv(w.host, c)
    && w.observation.revision == |w.started|
    && (forall i :: 0 <= i < |w.started| ==>
          && w.started[i].probe == Probe(i + 1, Lookup(w.started[i].host))
          && HostInv(w.started[i].host, c) && Later(w.started[i].host, w.host))
    && (w.observation.target.Some? ==>
          && w.started != [] && w.observation.target == w.started[|w.started| - 1].probe.captured)
  }

  lemma LaterIsTransitive(h: Host, k: Host, l: Host)
    requires Later(h, k) && Later(k, l)
    ensures Later(h, l)
  {
  }

  lemma LaterIsReflexive(h: Host)
    ensures Later(h, h)
  {
  }

  lemma WorldStepKeeps(w: World, op: WorldOp, c: HostConfig)
    requires WorldInv(w, c)
    ensures WorldInv(WorldStep(w, op, c), c)
  {
    hide HostInv, HostRuns.Step, Later, Lookup;
    match op
    case HostDoes(hostOp) =>
      StepKeeps(w.host, hostOp, c);
      StepIsLater(w.host, hostOp, c);
      if hostOp.Complete? {
        var next := HostRuns.Step(w.host, hostOp, c);
        forall i | 0 <= i < |w.started| ensures Later(w.started[i].host, next) {
          LaterIsTransitive(w.started[i].host, w.host, next);
        }
      }
    case BeginProbe =>
      LaterIsReflexive(w.host);
    case FinishProbe(which, result) =>
  }

  lemma {:induction false} EveryWorldIsOrdered(ops: seq<WorldOp>, c: HostConfig)
    ensures WorldInv(RunWorld(ops, c), c)
  {
    hide WorldInv, WorldStep;
    if ops == [] {
      EveryRunIsDurable([], c);
      StartsOrdered(c);
    } else {
      EveryWorldIsOrdered(ops[..|ops| - 1], c);
      WorldStepKeeps(RunWorld(ops[..|ops| - 1], c), ops[|ops| - 1], c);
    }
  }

  lemma StartsOrdered(c: HostConfig)
    requires HostInv(InitialHost(c), c)
    ensures WorldInv(World(InitialHost(c), UNOBSERVED, []), c)
  {
    hide HostInv, InitialHost;
  }

  /** Recording is last-started-wins: an overtaken probe changes nothing, however late it finishes. */
  lemma OvertakenProbesAreIgnored(ops: seq<WorldOp>, which: nat, result: ProbeResult, c: HostConfig)
    requires which + 1 < |RunWorld(ops, c).started|
    ensures WorldStep(RunWorld(ops, c), FinishProbe(which, result), c) == RunWorld(ops, c)
  {
    hide RunWorld, HostInv, Later;
    EveryWorldIsOrdered(ops, c);
  }

  /**
   * In every interleaving, `verified` refers to the current history: the last-started probe looked at a host of this
   * very process with the same retained blocks and the same view as now, standing exactly at the observed tip.
   */
  lemma VerifiedIsCurrent(ops: seq<WorldOp>, expired: bool, c: HostConfig)
    requires
      var w := RunWorld(ops, c);
      StatusOf(w.observation, Lookup(w.host), expired) == Reconciled
    ensures
      var w := RunWorld(ops, c);
      && !expired && w.started != []
      && var then_ := w.started[|w.started| - 1].host;
         && then_.reader.blocks == w.host.reader.blocks
         && then_.reader.projection == w.host.reader.projection
         && Lookup(then_) == Lookup(w.host)
         && w.host.tip == Some(w.host.reader.point) && CanRead(w.host)
  {
    hide RunWorld, HostInv;
    EveryWorldIsOrdered(ops, c);
    var w := RunWorld(ops, c);
    var then_ := w.started[|w.started| - 1].host;
    assert Lookup(then_).Some? && Lookup(then_) == Lookup(w.host);
    SameHeadSameHistory(then_, w.host, c);
  }

  /** Lookups are verified exactly under a reconciled, unexpired observation of the present target; every other case says why. */
  lemma StatusIsExact(o: Observation, target: Option<LookupTarget>, expired: bool)
    ensures StatusOf(o, target, expired) == Reconciled <==>
      o.reason == Reconciled && target.Some? && o.target.Some? && target.value == o.target.value && !expired
    ensures StatusOf(o, target, expired) == ReaderChanged && o.reason == Reconciled <==>
      o.reason == Reconciled && (target.None? || o.target.None? || target.value != o.target.value)
    ensures StatusOf(o, target, expired) == ObservationExpired && o.reason == Reconciled <==>
      o.reason == Reconciled && target.Some? && o.target == target && expired
    ensures o.reason != Reconciled ==> StatusOf(o, target, expired) == o.reason
  {
  }

  /**
   * A probe that no later one overtakes is recorded as it ended: then lookups are verified exactly if it was not aborted,
   * reconciled, and looked at the target that is still present.
   */
  lemma LatestProbeIsRecorded(o: Observation, target: Option<LookupTarget>, result: ProbeResult, now: Option<LookupTarget>, expired: bool)
    ensures
      var (begun, probe) := Begun(o, target);
      var finished := Finished(begun, probe, result);
      && begun.reason == Checking && begun.target == None && StatusOf(begun, now, expired) == Checking
      && finished.target == target && finished.reachable == result.reachable && finished.revision == o.revision + 1
      && finished.reason == (if result.aborted then ProbeAborted else result.reason)
      && (StatusOf(finished, now, expired) == Reconciled <==>
            !result.aborted && result.reason == Reconciled && target.Some? && now == target && !expired)
  {
  }
}
