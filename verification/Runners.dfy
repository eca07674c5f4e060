/** The serial durable host: validate privately, commit history, publish, then serve. */
module Runners {
  import opened Results
  import opened Types
  import opened AcceptedTransactions
  import opened Projections
  import opened Readers
  import opened Journals

  datatype Phase = Replaying | Connecting | CatchingUp | Ready | Disconnected | Failed | Stopped

  datatype Limits = Limits(
    maxBlockBytes: nat,
    maxHistoryBytes: nat,
    maxBlocks: nat,
    maxTransactions: nat,
    maxUtxos: nat,
    maxRecords: nat,
    maxLagSlots: nat)

  /** The two measures are the encoded sizes of a transaction and of a journal body. */
  datatype HostConfig = HostConfig(
    reader: ReaderConfig,
    limits: Limits,
    transactionBytes: RawTransaction -> nat,
    bodyBytes: AcceptedBlock -> nat)

  /** One process: its durable journal, its reader and its session. */
  datatype Host = Host(
    journal: JournalState,
    reader: ReaderState,
    phase: Phase,
    generation: nat,
    tip: Option<ChainPoint>,
    errored: bool,
    instance: nat)

  datatype LookupTarget = LookupTarget(instance: nat, generation: nat, point: ChainPoint)

  function TransactionBytes(transactions: seq<RawTransaction>, c: HostConfig): nat {
    if transactions == [] then 0 else c.transactionBytes(transactions[0]) + TransactionBytes(transactions[1..], c)
  }

  predicate EventFits(block: AcceptedBlock, c: HostConfig) {
    TransactionBytes(block.transactions, c) <= c.limits.maxBlockBytes
  }

  function HistoryBytes(rows: seq<AcceptedBlock>, c: HostConfig): nat {
    if rows == [] then 0 else HistoryBytes(rows[..|rows| - 1], c) + c.bodyBytes(rows[|rows| - 1])
  }

  predicate ProjectionFits(p: Projection, blocks: nat, limits: Limits) {
    && blocks <= limits.maxBlocks
    && |p.transactions| <= limits.maxTransactions
    && |p.utxos| <= limits.maxUtxos
    && |p.vaults| + |p.requests| + |p.claims| <= limits.maxRecords
  }

  predicate InSession(phase: Phase) {
    phase.Ready? || phase.CatchingUp?
  }

  /** A source tip is at or after the head, and the same block when at its slot. */
  predicate TipFits(tip: ChainPoint, head: ChainPoint) {
    head.slot <= tip.slot && (tip.slot == head.slot ==> tip.blockHash == head.blockHash)
  }

  function Progressed(h: Host, tip: ChainPoint, c: HostConfig): Host {
    var latest := if h.tip.Some? && tip.slot < h.tip.value.slot then h.tip.value else tip;
    h.(tip := Some(latest), errored := false,
       phase := if latest.slot - h.reader.point.slot <= c.limits.maxLagSlots then Ready else CatchingUp)
  }

  function Failure(h: Host): Host {
    h.(phase := Failed, errored := true, generation := h.generation + 1)
  }

  function Published(h: Host, u: Prepared): Host {
    h.(reader := ReaderState(u.retained, u.next, u.cursor, h.reader.revision + 1))
  }

  /** Everything a forward event must pass before it is published: budgets, tip, projection, and the commit. */
  function AdmitForward(h: Host, block: AcceptedBlock, tip: ChainPoint, c: HostConfig): Result<(Prepared, JournalState)> {
    var bytes := HistoryBytes(h.journal.rows, c) + c.bodyBytes(block);
    :- Need(InSession(h.phase), WrongPhase);
    :- Need(EventFits(block, c), BudgetExceeded);
    :- Need(TipFits(tip, block.point), TipConflict);
    :- Need(bytes <= c.limits.maxHistoryBytes, BudgetExceeded);
    var u :- PrepareForward(h.reader, block, c.reader);
    :- Need(ProjectionFits(u.next, |u.retained|, c.limits), BudgetExceeded);
    var j :- Appended(h.journal, block);
    Ok((u, j))
  }

  /** A forward event outside a session fails the host too. */
  function Forwarded(h: Host, block: AcceptedBlock, tip: ChainPoint, c: HostConfig): Host {
    var admitted := AdmitForward(h, block, tip, c);
    if admitted.Err? then Failure(h)
    else Progressed(Published(h.(journal := admitted.value.1), admitted.value.0), tip, c)
  }

  function AdmitBackward(h: Host, target: ChainPoint, tip: ChainPoint, c: HostConfig): Result<(Prepared, JournalState)> {
    var expected := h.reader.point;
    :- Need(TipFits(tip, target), TipConflict);
    var u :- PrepareBackward(h.reader, target, c.reader);
    var j :- RolledBack(h.journal, target, expected, c.reader.intersection);
    Ok((u, j))
  }

  /** A backward event outside a session is refused and changes nothing. */
  function Backwarded(h: Host, target: ChainPoint, tip: ChainPoint, c: HostConfig): Host {
    if !InSession(h.phase) then h
    else
      var s := h.(phase := CatchingUp, generation := h.generation + 1);
      var admitted := AdmitBackward(s, target, tip, c);
      if admitted.Err? then Failure(s)
      else Progressed(Published(s.(journal := admitted.value.1), admitted.value.0).(tip := None), tip, c)
  }

  predicate CanReconcile(phase: Phase) {
    !phase.Failed? && !phase.Stopped? && !phase.Replaying?
  }

  function Intersected(h: Host, selected: ChainPoint, tip: ChainPoint, c: HostConfig): Host {
    if !CanReconcile(h.phase) then h
    else Backwarded(h.(generation := h.generation + 1, phase := CatchingUp), selected, tip, c)
  }

  function DisconnectedHost(h: Host): Host {
    h.(phase := if h.phase.Failed? || h.phase.Stopped? then h.phase else Disconnected, generation := h.generation + 1)
  }

  predicate TipConflicts(h: Host, tip: ChainPoint) {
    !TipFits(tip, h.reader.point) || (h.tip.Some? && tip.slot < h.tip.value.slot)
  }

  /** A heartbeat tip either advances the session or reveals a fork and disconnects. */
  function Observed(h: Host, tip: ChainPoint, c: HostConfig): Host {
    if !InSession(h.phase) then h
    else if TipConflicts(h, tip) then DisconnectedHost(h.(tip := Some(tip)))
    else Progressed(h, tip, c)
  }

  function Closed(h: Host): Host {
    h.(phase := Stopped)
  }

  predicate CanRead(h: Host) {
    h.phase.Ready? && h.reader.point == h.journal.head
  }

  /** Lookups need the exact observed tip, whatever lag is tolerated. */
  function Lookup(h: Host): Option<LookupTarget> {
    if CanRead(h) && h.tip == Some(h.reader.point) then Some(LookupTarget(h.instance, h.generation, h.reader.point)) else None
  }

  function Opened(journal: JournalState, instance: nat, c: HostConfig): Host {
    Host(journal, InitialReader(c.reader), Replaying, 0, None, false, instance)
  }

  function RestoreStep(h: Host, block: AcceptedBlock, c: HostConfig): Host {
    var u := PrepareForward(h.reader, block, c.reader);
    if h.phase.Failed? then h
    else if EventFits(block, c) && u.Ok? && ProjectionFits(u.value.next, |u.value.retained|, c.limits) then Published(h, u.value)
    else Failure(h)
  }

  /** The host after republishing the first k rows. */
  function RestoreTo(h: Host, k: nat, c: HostConfig): Host
    requires k <= |h.journal.rows|
  {
    if k == 0 then h else RestoreStep(RestoreTo(h, k - 1, c), h.journal.rows[k - 1], c)
  }

  function Restored(h: Host, c: HostConfig): Host {
    if c.limits.maxBlocks < |h.journal.rows| || c.limits.maxHistoryBytes < HistoryBytes(h.journal.rows, c) then Failure(h)
    else
      var r := RestoreTo(h, |h.journal.rows|, c);
      if r.phase.Failed? then r
      else if r.reader.point != h.journal.head then Failure(r)
      else r.(phase := Connecting)
  }

  lemma {:induction false} RestoreFailsEarly(h: Host, k: nat, n: nat, c: HostConfig)
    requires k <= n <= |h.journal.rows| && RestoreTo(h, k, c).phase.Failed?
    ensures RestoreTo(h, n, c) == RestoreTo(h, k, c)
  {
    hide PrepareForward, ProjectionFits, EventFits;
    if k < n {
      RestoreFailsEarly(h, k, n - 1, c);
    }
  }

  class Runner {
    const config: HostConfig
    const instance: nat
    const journal: Journal
    const reader: VaultReader
    var generation: nat
    var phase: Phase
    var tip: Option<ChainPoint>
    var errored: bool

    function View(): Host
      reads this, journal, reader
    {
      Host(journal.State(), reader.State(), phase, generation, tip, errored, instance)
    }

    ghost predicate Valid()
      reads this, reader
    {
      reader.Valid() && reader.config == config.reader && journal.intersection == config.reader.intersection
    }

    constructor (config: HostConfig, journal: Journal, instance: nat)
      requires journal.intersection == config.reader.intersection
      ensures this.config == config && this.instance == instance && this.journal == journal && fresh(reader)
      ensures Valid() && View() == Opened(journal.State(), instance, config)
    {
      this.config, this.instance, this.journal := config, instance, journal;
      reader := new VaultReader(config.reader);
      generation, phase, tip, errored := 0, Replaying, None, false;
    }

    method RecordFailure()
      modifies this
      ensures View() == Failure(old(View()))
    {
      phase, errored, generation := Failed, true, generation + 1;
    }

    method Disconnect()
      modifies this
      ensures View() == DisconnectedHost(old(View()))
    {
      if !phase.Failed? && !phase.Stopped? {
        phase := Disconnected;
      }
      generation := generation + 1;
    }

    method Close()
      modifies this
      ensures View() == Closed(old(View()))
    {
      phase := Stopped;
    }

    method Progress(observed: ChainPoint)
      modifies this
      ensures View() == Progressed(old(View()), observed, config)
    {
      var latest := observed;
      if tip.Some? && observed.slot < tip.value.slot {
        latest := tip.value;
      }
      tip, errored := Some(latest), false;
      phase := if latest.slot - reader.point.slot <= config.limits.maxLagSlots then Ready else CatchingUp;
    }

    /** Replay privately; a matching live intersection is still required before serving. */
    method Restore() returns (done: Outcome)
      requires Valid() && phase.Replaying?
      modifies this, reader
      ensures Valid() && View() == Restored(old(View()), config)
      ensures done.Pass? <==> phase.Connecting?
    {
      hide PrepareForward, ProjectionFits, EventFits, Faithful;
      ghost var start := View();
      var rows := journal.rows;
      if config.limits.maxBlocks < |rows| || config.limits.maxHistoryBytes < HistoryBytes(rows, config) {
        RecordFailure();
        return Fail(BudgetExceeded);
      }
      for k := 0 to |rows|
        invariant Valid() && View() == RestoreTo(start, k, config) && phase.Replaying?
        invariant journal.State() == start.journal
      {
        var admitted := Admit(rows[k]);
        if admitted.Err? {
          RecordFailure();
          RestoreFailsEarly(start, k + 1, |rows|, config);
          return Fail(admitted.error);
        }
        var _ := admitted.value.Publish();
      }
      if reader.point != journal.head {
        RecordFailure();
        return Fail(BrokenContinuity);
      }
      phase := Connecting;
      return Pass;
    }

    /** The checks shared by restoring a row and accepting a new block. */
    method Admit(block: AcceptedBlock) returns (update: Result<PreparedUpdate>)
      requires Valid()
      ensures
        var u := PrepareForward(reader.State(), block, config.reader);
        update.Ok? <==> EventFits(block, config) && u.Ok? && ProjectionFits(u.value.next, |u.value.retained|, config.limits)
      ensures update.Ok? ==>
        && fresh(update.value) && update.value.reader == reader && update.value.Usable()
        && Ok(update.value.content) == PrepareForward(reader.State(), block, config.reader)
        && update.value.content.revision == reader.revision
    {
      hide PrepareForward, ProjectionFits, Faithful;
      if !EventFits(block, config) {
        return Err(BudgetExceeded);
      }
      update := reader.Forward(block);
      if update.Ok? {
        var content := update.value.content;
        ForwardIsFaithful(reader.State(), block, config.reader);
        if !ProjectionFits(content.next, |content.retained|, config.limits) {
          return Err(BudgetExceeded);
        }
      }
    }

    method Forward(block: AcceptedBlock, observed: ChainPoint) returns (done: Outcome)
      requires Valid()
      modifies this, journal, reader
      ensures Valid() && View() == Forwarded(old(View()), block, observed, config)
      ensures done.Pass? <==> AdmitForward(old(View()), block, observed, config).Ok?
    {
      hide PrepareForward, ProjectionFits, EventFits, Faithful, Appended, TipFits;
      if !InSession(phase) || !EventFits(block, config) || !TipFits(observed, block.point)
        || config.limits.maxHistoryBytes < HistoryBytes(journal.rows, config) + config.bodyBytes(block)
      {
        RecordFailure();
        return Fail(WrongPhase);
      }
      var update := Admit(block);
      if update.Err? {
        RecordFailure();
        return Fail(update.error);
      }
      var appended := journal.Append(block);
      if appended.Fail? {
        RecordFailure();
        return appended;
      }
      var _ := update.value.Publish();
      Progress(observed);
      return Pass;
    }

    method Backward(target: ChainPoint, observed: ChainPoint) returns (done: Outcome)
      requires Valid()
      modifies this, journal, reader
      ensures Valid() && View() == Backwarded(old(View()), target, observed, config)
      ensures done.Pass? <==> InSession(old(phase)) && AdmitBackward(old(View()), target, observed, config).Ok?
    {
      hide PrepareBackward, Faithful, RolledBack, TipFits;
      if !InSession(phase) {
        return Fail(WrongPhase);
      }
      phase, generation := CatchingUp, generation + 1;
      if !TipFits(observed, target) {
        RecordFailure();
        return Fail(TipConflict);
      }
      var update := reader.Backward(target);
      if update.Err? {
        RecordFailure();
        return Fail(update.error);
      }
      BackwardIsFaithful(reader.State(), target, config.reader);
      var rolled := journal.Rollback(target, reader.point);
      if rolled.Fail? {
        RecordFailure();
        return rolled;
      }
      var _ := update.value.Publish();
      tip := None;
      Progress(observed);
      return Pass;
    }

    /** Every connection reconciles its intersection explicitly, even when it equals the old head. */
    method Intersect(selected: ChainPoint, observed: ChainPoint) returns (done: Outcome)
      requires Valid()
      modifies this, journal, reader
      ensures Valid() && View() == Intersected(old(View()), selected, observed, config)
    {
      hide Backwarded, Faithful, AdmitBackward;
      if !CanReconcile(phase) {
        return Fail(WrongPhase);
      }
      generation, phase := generation + 1, CatchingUp;
      done := Backward(selected, observed);
    }

    method ObserveTip(observed: ChainPoint) returns (advanced: Result<bool>)
      requires Valid()
      modifies this
      ensures Valid() && View() == Observed(old(View()), observed, config)
      ensures advanced.Ok? <==> InSession(old(phase))
      ensures advanced.Ok? ==> advanced.value == !TipConflicts(old(View()), observed)
    {
      hide Faithful;
      if !InSession(phase) {
        return Err(WrongPhase);
      }
      if TipConflicts(View(), observed) {
        tip := Some(observed);
        Disconnect();
        return Ok(false);
      }
      Progress(observed);
      return Ok(true);
    }

    method Target() returns (target: Option<LookupTarget>)
      ensures target == Lookup(View())
    {
      if !phase.Ready? || reader.point != journal.head || tip != Some(reader.point) {
        return None;
      }
      return Some(LookupTarget(instance, generation, reader.point));
    }
  }
}
