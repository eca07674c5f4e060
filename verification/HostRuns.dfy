/** Runs of the durable host with crashes: what stopping it anywhere leaves, and what a generation means. */
module HostRuns {
  import opened Results
  import opened Types
  import opened Projections
  import opened AcceptedTransactions
  import opened Readers
  import opened Journals
  import opened Runners

  datatype Event =
    | ForwardEvent(block: AcceptedBlock, observed: ChainPoint)
    | BackwardEvent(target: ChainPoint, observed: ChainPoint)
    | IntersectEvent(target: ChainPoint, observed: ChainPoint)
    | TipEvent(observed: ChainPoint)
    | DisconnectEvent
    | FailEvent
    | CloseEvent

  function Handle(h: Host, e: Event, c: HostConfig): Host {
    match e
    case ForwardEvent(block, observed) => Forwarded(h, block, observed, c)
    case BackwardEvent(target, observed) => Backwarded(h, target, observed, c)
    case IntersectEvent(target, observed) => Intersected(h, target, observed, c)
    case TipEvent(observed) => Observed(h, observed, c)
    case DisconnectEvent => DisconnectedHost(h)
    case FailEvent => Failure(h)
    case CloseEvent => Closed(h)
  }

  /** A crash during an event strikes before or after its journal commit; a new process then restores. */
  datatype HostOp = Complete(event: Event) | Crash(event: Event, committed: bool)

  /** The journal on disk when the process stops. */
  function JournalAtCrash(h: Host, e: Event, committed: bool, c: HostConfig): JournalState {
    if committed then Handle(h, e, c).journal else h.journal
  }

  function Step(h: Host, op: HostOp, c: HostConfig): Host {
    match op
    case Complete(e) => Handle(h, e, c)
    case Crash(e, committed) => Restored(Opened(JournalAtCrash(h, e, committed, c), h.instance + 1, c), c)
  }

  function InitialHost(c: HostConfig): Host {
    Restored(Opened(JournalState([], c.reader.intersection), 0, c), c)
  }

  function RunHost(ops: seq<HostOp>, c: HostConfig): Host {
    if ops == [] then InitialHost(c) else Step(RunHost(ops[..|ops| - 1], c), ops[|ops| - 1], c)
  }

  /** A prefix of the history that fits every budget when it is replayed. */
  predicate PrefixFits(rows: seq<AcceptedBlock>, k: nat, c: HostConfig)
    requires 0 < k <= |rows|
  {
    && EventFits(rows[k - 1], c)
    && Replay(rows[..k], c.reader).Ok?
    && ProjectionFits(Replay(rows[..k], c.reader).value, k, c.limits)
  }

  /** A journal that a new process is certain to restore. */
  ghost predicate Durable(j: JournalState, c: HostConfig) {
    && Contiguous(j.rows, c.reader) && j.head == Head(j.rows, c.reader)
    && UniqueHashes(j.rows)
    && HistoryBytes(j.rows, c) <= c.limits.maxHistoryBytes
    && forall k :: 0 < k <= |j.rows| ==> PrefixFits(j.rows, k, c)
  }

  /** Outside an in-flight event the journal and the reader agree, and the journal can be restored. */
  ghost predicate HostInv(h: Host, c: HostConfig) {
    && Faithful(h.reader.projection, h.reader.blocks, h.reader.point, c.reader)
    && h.journal == JournalState(h.reader.blocks, h.reader.point)
    && Durable(h.journal, c)
    && !h.phase.Replaying?
    && (h.phase.Ready? ==>
          && h.tip.Some? && TipFits(h.tip.value, h.reader.point)
          && h.tip.value.slot - h.reader.point.slot <= c.limits.maxLagSlots)
  }

  lemma {:induction false} HistoryBytesOfPrefix(rows: seq<AcceptedBlock>, k: nat, c: HostConfig)
    requires k <= |rows|
    ensures HistoryBytes(rows[..k], c) <= HistoryBytes(rows, c)
  {
    if k == |rows| {
      assert rows[..k] == rows;
    } else {
      HistoryBytesOfPrefix(rows[..|rows| - 1], k, c);
      assert rows[..|rows| - 1][..k] == rows[..k];
    }
  }

  lemma PrefixFitsIsLocal(rows: seq<AcceptedBlock>, longer: seq<AcceptedBlock>, k: nat, c: HostConfig)
    requires rows <= longer && 0 < k <= |rows|
    ensures PrefixFits(rows, k, c) <==> PrefixFits(longer, k, c)
  {
    hide Replay, ProjectionFits, EventFits;
    assert rows[..k] == longer[..k];
  }

  lemma DurablePrefix(j: JournalState, k: nat, c: HostConfig)
    requires Durable(j, c) && k <= |j.rows|
    ensures Durable(JournalState(j.rows[..k], Head(j.rows[..k], c.reader)), c)
  {
    hide PrefixFits, Contiguous, HistoryBytes;
    PrefixIsContiguous(j.rows, k, c.reader);
    HistoryBytesOfPrefix(j.rows, k, c);
    forall i | 0 < i <= k ensures PrefixFits(j.rows[..k], i, c) {
      PrefixFitsIsLocal(j.rows[..k], j.rows, i, c);
    }
  }

  lemma DurableExtends(j: JournalState, block: AcceptedBlock, c: HostConfig)
    requires Durable(j, c) && Appended(j, block).Ok?
    requires Contiguous(j.rows + [block], c.reader)
    requires HistoryBytes(j.rows, c) + c.bodyBytes(block) <= c.limits.maxHistoryBytes
    requires PrefixFits(j.rows + [block], |j.rows| + 1, c)
    ensures Durable(Appended(j, block).value, c)
  {
    hide PrefixFits, Contiguous;
    var rows := j.rows + [block];
    assert rows[..|rows| - 1] == j.rows;
    forall i | 0 < i <= |rows| ensures PrefixFits(rows, i, c) {
      if i <= |j.rows| {
        PrefixFitsIsLocal(j.rows, rows, i, c);
      }
    }
  }

  lemma ForwardKeeps(h: Host, block: AcceptedBlock, tip: ChainPoint, c: HostConfig)
    requires HostInv(h, c)
    ensures HostInv(Forwarded(h, block, tip, c), c)
  {
    hide Faithful, PrepareForward, EventFits, ProjectionFits, Durable;
    if AdmitForward(h, block, tip, c).Ok? {
      var u := PrepareForward(h.reader, block, c.reader).value;
      ForwardIsFaithful(h.reader, block, c.reader);
      CommitForwardIsDurable(h, u, block, c);
    }
  }

  lemma CommitForwardIsDurable(h: Host, u: Prepared, block: AcceptedBlock, c: HostConfig)
    requires HostInv(h, c) && u.retained == h.reader.blocks + [block]
    requires Faithful(u.next, u.retained, u.cursor, c.reader)
    requires EventFits(block, c) && ProjectionFits(u.next, |u.retained|, c.limits)
    requires HistoryBytes(h.journal.rows, c) + c.bodyBytes(block) <= c.limits.maxHistoryBytes
    requires Appended(h.journal, block).Ok?
    ensures Appended(h.journal, block).value == JournalState(u.retained, u.cursor)
    ensures Durable(Appended(h.journal, block).value, c)
  {
    hide Replay, EventFits, ProjectionFits, Durable, Contiguous;
    assert u.retained[..|u.retained|] == u.retained;
    DurableExtends(h.journal, block, c);
  }

  lemma BackwardKeeps(h: Host, target: ChainPoint, tip: ChainPoint, c: HostConfig)
    requires HostInv(h, c)
    ensures HostInv(Backwarded(h, target, tip, c), c)
  {
    hide Faithful, PrepareBackward, RolledBack, Durable;
    if InSession(h.phase) {
      var s := h.(phase := CatchingUp, generation := h.generation + 1);
      if AdmitBackward(s, target, tip, c).Ok? {
        BackwardIsFaithful(s.reader, target, c.reader);
        CommitBackwardIsDurable(s, target, c);
      }
    }
  }

  lemma CommitBackwardIsDurable(h: Host, target: ChainPoint, c: HostConfig)
    requires h.journal == JournalState(h.reader.blocks, h.reader.point) && Durable(h.journal, c)
    requires PrepareBackward(h.reader, target, c.reader).Ok?
    ensures
      var u := PrepareBackward(h.reader, target, c.reader).value;
      var rolled := RolledBack(h.journal, target, h.reader.point, c.reader.intersection);
      && u.cursor == target && rolled == Ok(JournalState(u.retained, u.cursor))
      && Durable(rolled.value, c)
  {
    hide Replay, Contiguous, PrefixFits;
    var u := PrepareBackward(h.reader, target, c.reader).value;
    RollbackAgreesWithReader(h.journal, target, c.reader);
    assert u.retained == h.journal.rows[..|u.retained|];
    DurablePrefix(h.journal, |u.retained|, c);
  }

  lemma HandleKeeps(h: Host, e: Event, c: HostConfig)
    requires HostInv(h, c)
    ensures HostInv(Handle(h, e, c), c)
  {
    hide Faithful, Durable, Forwarded, Backwarded;
    match e
    case ForwardEvent(block, observed) => ForwardKeeps(h, block, observed, c);
    case BackwardEvent(target, observed) => BackwardKeeps(h, target, observed, c);
    case IntersectEvent(target, observed) =>
      if CanReconcile(h.phase) {
        BackwardKeeps(h.(generation := h.generation + 1, phase := CatchingUp), target, observed, c);
      }
    case TipEvent(observed) =>
    case DisconnectEvent =>
    case FailEvent =>
    case CloseEvent =>
  }

  /** Preparing the next stored row on top of the replay of the earlier ones. */
  lemma StoredRowIsAdmitted(j: JournalState, k: nat, c: HostConfig)
    requires Durable(j, c) && k < |j.rows| && Replay(j.rows[..k], c.reader).Ok?
    ensures Replay(j.rows[..k + 1], c.reader).Ok?
    ensures
      var s := ReaderState(j.rows[..k], Replay(j.rows[..k], c.reader).value, Head(j.rows[..k], c.reader), k);
      var next := Replay(j.rows[..k + 1], c.reader).value;
      && PrepareForward(s, j.rows[k], c.reader) == Ok(Prepared(next, j.rows[..k + 1], j.rows[k].point, k))
      && EventFits(j.rows[k], c) && ProjectionFits(next, k + 1, c.limits)
  {
    hide EventFits, ProjectionFits, ProjectBlock, Durable, IsPoint;
    var block := j.rows[k];
    assert j.rows[..k + 1] == j.rows[..k] + [block];
    assert j.rows[..k + 1][..k] == j.rows[..k];
    StoredRow(j, k, c);
  }

  lemma StoredRow(j: JournalState, k: nat, c: HostConfig)
    requires Durable(j, c) && k < |j.rows|
    ensures PrefixFits(j.rows, k + 1, c)
    ensures
      var block := j.rows[k];
      block.parent == Head(j.rows[..k], c.reader) && block.parent.slot < block.point.slot && IsPoint(block.point)
  {
    hide PrefixFits, UniqueHashes, IsPoint, HistoryBytes;
  }

  /** Restoring replays exactly the stored rows, each within budget because it once was. */
  lemma {:induction false} RestoreReplays(j: JournalState, instance: nat, k: nat, c: HostConfig)
    requires Durable(j, c) && k <= |j.rows|
    ensures
      var r := RestoreTo(Opened(j, instance, c), k, c);
      && Replay(j.rows[..k], c.reader).Ok?
      && r == Opened(j, instance, c).(reader :=
           ReaderState(j.rows[..k], Replay(j.rows[..k], c.reader).value, Head(j.rows[..k], c.reader), k))
  {
    hide EventFits, ProjectionFits, Durable, PrepareForward;
    if k == 0 {
      assert j.rows[..k] == [];
    } else {
      hide Replay;
      RestoreReplays(j, instance, k - 1, c);
      StoredRowIsAdmitted(j, k - 1, c);
    }
  }

  lemma RestoreSucceeds(j: JournalState, instance: nat, c: HostConfig)
    requires Durable(j, c)
    ensures
      var r := Restored(Opened(j, instance, c), c);
      && HostInv(r, c) && r.phase.Connecting? && r.generation == 0 && r.instance == instance && r.reader.blocks == j.rows
  {
    hide RestoreTo, PrefixFits, Contiguous;
    RestoreReplays(j, instance, |j.rows|, c);
    assert j.rows[..|j.rows|] == j.rows;
    if |j.rows| > 0 {
      BlocksFit(j, c);
    }
  }

  lemma BlocksFit(j: JournalState, c: HostConfig)
    requires Durable(j, c) && 0 < |j.rows|
    ensures |j.rows| <= c.limits.maxBlocks
  {
    assert PrefixFits(j.rows, |j.rows|, c);
  }

  lemma InitialIsDurable(c: HostConfig)
    ensures Durable(JournalState([], c.reader.intersection), c)
  {
  }

  lemma StepKeeps(h: Host, op: HostOp, c: HostConfig)
    requires HostInv(h, c)
    ensures HostInv(Step(h, op, c), c)
  {
    hide Handle, Durable, Restored, Faithful;
    HandleKeeps(h, op.event, c);
    if op.Crash? {
      RestoreSucceeds(JournalAtCrash(h, op.event, op.committed, c), h.instance + 1, c);
    }
  }

  /**
   * Along every run, crashes included: outside an in-flight event the journal holds exactly the reader's retained
   * blocks, the reader's view is their replay, and `ready` means caught up within the allowed lag.
   */
  lemma {:induction false} EveryRunIsDurable(ops: seq<HostOp>, c: HostConfig)
    ensures HostInv(RunHost(ops, c), c)
  {
    hide HostInv, Step, Durable;
    if ops == [] {
      InitialIsDurable(c);
      RestoreSucceeds(JournalState([], c.reader.intersection), 0, c);
    } else {
      EveryRunIsDurable(ops[..|ops| - 1], c);
      StepKeeps(RunHost(ops[..|ops| - 1], c), ops[|ops| - 1], c);
    }
  }

  /**
   * Crash safety: stopping the host anywhere in an event and starting it again always succeeds, and serves exactly
   * the projection from before the event or the one from after it.
   */
  lemma CrashYieldsBeforeOrAfter(ops: seq<HostOp>, e: Event, committed: bool, c: HostConfig)
    ensures
      var h := RunHost(ops, c);
      var r := Step(h, Crash(e, committed), c);
      var survivor := if committed then Handle(h, e, c) else h;
      && r.phase.Connecting?
      && r.reader.blocks == survivor.reader.blocks
      && r.reader.projection == survivor.reader.projection
      && r.reader.point == survivor.reader.point
  {
    hide Handle, Durable, Restored, RunHost, Replay, Contiguous;
    EveryRunIsDurable(ops, c);
    var h := RunHost(ops, c);
    HandleKeeps(h, e, c);
    RestoreSucceeds(JournalAtCrash(h, e, committed, c), h.instance + 1, c);
  }

  /** The order in which a run passes through processes, generations and, within one, longer and longer histories. */
  predicate Later(h: Host, k: Host) {
    || h.instance < k.instance
    || (h.instance == k.instance
        && (h.generation < k.generation || (h.generation == k.generation && h.reader.blocks <= k.reader.blocks)))
  }

  lemma HandleIsLater(h: Host, e: Event, c: HostConfig)
    requires HostInv(h, c)
    ensures Later(h, Handle(h, e, c)) && Handle(h, e, c).instance == h.instance
  {
    hide HostInv, AdmitForward, AdmitBackward;
    if e.ForwardEvent? && AdmitForward(h, e.block, e.observed, c).Ok? {
      AdmittedExtends(h, e.block, e.observed, c);
    }
  }

  lemma AdmittedExtends(h: Host, block: AcceptedBlock, tip: ChainPoint, c: HostConfig)
    requires AdmitForward(h, block, tip, c).Ok?
    ensures AdmitForward(h, block, tip, c).value.0.retained == h.reader.blocks + [block]
  {
    hide ProjectBlock, Appended, IsPoint;
  }

  lemma StepIsLater(h: Host, op: HostOp, c: HostConfig)
    requires HostInv(h, c)
    ensures Later(h, Step(h, op, c))
    ensures h.instance <= Step(h, op, c).instance && (op.Complete? ==> Step(h, op, c).instance == h.instance)
  {
    hide Handle, HostInv, Restored, Durable, Later, JournalAtCrash;
    if op.Crash? {
      var j := JournalAtCrash(h, op.event, op.committed, c);
      CrashedIsDurable(h, op.event, op.committed, c);
      RestoreSucceeds(j, h.instance + 1, c);
      NextProcessIsLater(h, Restored(Opened(j, h.instance + 1, c), c));
    } else {
      HandleIsLater(h, op.event, c);
    }
  }

  lemma NextProcessIsLater(h: Host, k: Host)
    requires h.instance < k.instance
    ensures Later(h, k)
  {
  }

  lemma CrashedIsDurable(h: Host, e: Event, committed: bool, c: HostConfig)
    requires HostInv(h, c)
    ensures Durable(JournalAtCrash(h, e, committed, c), c)
  {
    hide Handle, Durable, Faithful;
    HandleKeeps(h, e, c);
  }

  lemma {:induction false} RunIsLater(ops: seq<HostOp>, more: seq<HostOp>, c: HostConfig)
    ensures Later(RunHost(ops, c), RunHost(ops + more, c))
    decreases |more|
  {
    hide RunHost, Step, HostInv;
    if more == [] {
      assert ops + more == ops;
    } else {
      var earlier, last := more[..|more| - 1], more[|more| - 1];
      RunIsLater(ops, earlier, c);
      EveryRunIsDurable(ops + earlier, c);
      StepIsLater(RunHost(ops + earlier, c), last, c);
      RunSnoc(ops + earlier, last, c);
      assert ops + more == ops + earlier + [last];
    }
  }

  lemma RunSnoc(ops: seq<HostOp>, op: HostOp, c: HostConfig)
    ensures RunHost(ops + [op], c) == Step(RunHost(ops, c), op, c)
  {
    hide Step;
    assert (ops + [op])[..|ops|] == ops;
  }

  /** A retained history ending at the same point as one of its prefixes is that prefix. */
  lemma SameHeadSameHistory(h: Host, k: Host, c: HostConfig)
    requires HostInv(h, c) && HostInv(k, c)
    requires h.reader.blocks <= k.reader.blocks && h.reader.point == k.reader.point
    ensures h.reader.blocks == k.reader.blocks && h.reader.projection == k.reader.projection
  {
    hide Replay, Durable, Contiguous;
    var shorter, longer := h.reader.blocks, k.reader.blocks;
    PointsAreDistinct(longer, c.reader);
    assert shorter == longer[..|shorter|];
  }

  /** Equal instance, generation and head at two times of a run mean the identical history and view. */
  lemma SameGenerationSameHistory(ops: seq<HostOp>, more: seq<HostOp>, c: HostConfig)
    requires
      var h, k := RunHost(ops, c), RunHost(ops + more, c);
      h.instance == k.instance && h.generation == k.generation && h.reader.point == k.reader.point
    ensures
      var h, k := RunHost(ops, c), RunHost(ops + more, c);
      h.reader.blocks == k.reader.blocks && h.reader.projection == k.reader.projection
  {
    hide RunHost, HostInv;
    RunIsLater(ops, more, c);
    EveryRunIsDurable(ops, c);
    EveryRunIsDurable(ops + more, c);
    SameHeadSameHistory(RunHost(ops, c), RunHost(ops + more, c), c);
  }

  /** A ready host reads a published view at the durable head, at most the allowed lag behind the observed tip. */
  lemma ReadyIsCaughtUp(ops: seq<HostOp>, c: HostConfig)
    requires RunHost(ops, c).phase.Ready?
    ensures
      var h := RunHost(ops, c);
      && CanRead(h) && h.tip.Some?
      && 0 <= h.tip.value.slot - h.reader.point.slot <= c.limits.maxLagSlots
      && (Lookup(h).Some? <==> h.tip.value == h.reader.point)
  {
    hide RunHost, Faithful, Durable;
    EveryRunIsDurable(ops, c);
  }

  /**
   * A stopped host leaves the phase exactly on a block or a recorded failure, and no event makes it change its journal
   * or its view: the session check of a forward event is guarded by the handler that records a failure, while that of
   * a backward event is not.
   */
  lemma StoppedHost(h: Host, e: Event, c: HostConfig)
    requires h.phase.Stopped?
    ensures Handle(h, e, c).phase.Stopped? <==> !e.ForwardEvent? && !e.FailEvent?
    ensures !Handle(h, e, c).phase.Stopped? ==> Handle(h, e, c).phase.Failed?
    ensures Handle(h, e, c).journal == h.journal && Handle(h, e, c).reader == h.reader
    ensures e.BackwardEvent? || e.IntersectEvent? || e.TipEvent? ==> Handle(h, e, c) == h
  {
    hide AdmitBackward, EventFits, PrepareForward, ProjectionFits, Appended, HistoryBytes;
  }

  /** A failed host stays failed until it is closed, and changes its journal and view no more than a stopped one. */
  lemma FailedHost(h: Host, e: Event, c: HostConfig)
    requires h.phase.Failed?
    ensures Handle(h, e, c).phase == if e.CloseEvent? then Stopped else Failed
    ensures Handle(h, e, c).journal == h.journal && Handle(h, e, c).reader == h.reader
  {
    hide AdmitBackward, EventFits, PrepareForward, ProjectionFits, Appended, HistoryBytes;
  }

  /** Events handled in order by one process. */
  function Handled(h: Host, events: seq<Event>, c: HostConfig): Host {
    if events == [] then h else Handle(Handled(h, events[..|events| - 1], c), events[|events| - 1], c)
  }

  /** No block and no failure arrives after the last close. */
  predicate QuietSinceClose(events: seq<Event>) {
    events == []
    || var last := events[|events| - 1];
       last.CloseEvent? || (!last.ForwardEvent? && !last.FailEvent? && QuietSinceClose(events[..|events| - 1]))
  }

  /**
   * Once stopped, a process never serves again: whatever it is still sent, it is stopped or failed, with the journal and
   * the view it had; and it is stopped exactly when neither a block nor a failure came after its last close.
   */
  lemma {:induction false} StoppedRun(h: Host, events: seq<Event>, c: HostConfig)
    requires h.phase.Stopped?
    ensures
      var k := Handled(h, events, c);
      && k.journal == h.journal && k.reader == h.reader && !CanRead(k)
      && k.phase == if QuietSinceClose(events) then Stopped else Failed
  {
    hide Handle;
    if events != [] {
      var earlier, last := events[..|events| - 1], events[|events| - 1];
      StoppedRun(h, earlier, c);
      if QuietSinceClose(earlier) {
        StoppedHost(Handled(h, earlier, c), last, c);
      } else {
        FailedHost(Handled(h, earlier, c), last, c);
      }
    }
  }

  /**
   * A witness: under any configuration a new host that is closed and then receives an empty block at slot 1 fails, while
   * a rollback to slot 0 in place of the block is refused without a change.
   */
  lemma ClosedHostFailsOnBlock(c: HostConfig)
    ensures
      var origin, point := ChainPoint(0, "00"), ChainPoint(1, "01");
      var block := AcceptedBlock(point, origin, []);
      var closed := RunHost([Complete(CloseEvent)], c);
      && closed.phase.Stopped?
      && RunHost([Complete(CloseEvent), Complete(ForwardEvent(block, point))], c).phase.Failed?
      && RunHost([Complete(CloseEvent), Complete(BackwardEvent(origin, point))], c) == closed
  {
    hide Handle, InitialHost, RunHost;
    var origin, point := ChainPoint(0, "00"), ChainPoint(1, "01");
    var block := AcceptedBlock(point, origin, []);
    var closed := Handle(InitialHost(c), CloseEvent, c);
    FirstOps(CloseEvent, ForwardEvent(block, point), c);
    FirstOps(CloseEvent, BackwardEvent(origin, point), c);
    ClosedIsStopped(InitialHost(c), c);
    StoppedHost(closed, ForwardEvent(block, point), c);
    StoppedHost(closed, BackwardEvent(origin, point), c);
  }

  lemma FirstOps(e: Event, f: Event, c: HostConfig)
    ensures RunHost([Complete(e)], c) == Handle(InitialHost(c), e, c)
    ensures RunHost([Complete(e), Complete(f)], c) == Handle(Handle(InitialHost(c), e, c), f, c)
  {
    hide Handle, InitialHost;
    assert [Complete(e)][..0] == [];
    assert [Complete(e), Complete(f)][..1] == [Complete(e)];
  }

  lemma ClosedIsStopped(h: Host, c: HostConfig)
    ensures Handle(h, CloseEvent, c).phase.Stopped?
  {
  }

  /** The greater slot of an observed tip and a retained one. */
  function LatestSlot(observed: ChainPoint, retained: Option<ChainPoint>): int {
    if retained.Some? && observed.slot < retained.value.slot then retained.value.slot else observed.slot
  }

  /** A session that has just advanced to a head: its tip, whether it serves, and whether lookups may be answered. */
  predicate CaughtUp(k: Host, observed: ChainPoint, retained: Option<ChainPoint>, c: HostConfig) {
    var slot := LatestSlot(observed, retained);
    && k.tip.Some? && k.tip.value.slot == slot && (k.tip == Some(observed) || k.tip == retained) && !k.errored
    && (k.phase == Ready <==> slot - k.reader.point.slot <= c.limits.maxLagSlots)
    && (k.phase == CatchingUp <==> slot - k.reader.point.slot > c.limits.maxLagSlots)
    && (CanRead(k) <==> slot - k.reader.point.slot <= c.limits.maxLagSlots)
    && (Lookup(k).Some? <==> k.tip == Some(k.reader.point))
  }

  lemma ProgressedIsCaughtUp(h: Host, observed: ChainPoint, c: HostConfig)
    requires h.reader.point == h.journal.head
    ensures CaughtUp(Progressed(h, observed, c), observed, h.tip, c)
    ensures Progressed(h, observed, c) == h.(
      tip := Progressed(h, observed, c).tip, phase := Progressed(h, observed, c).phase, errored := false)
  {
  }

  /** An admitted block makes it the head, and the host serves exactly when the latest tip is within the allowed lag of it. */
  lemma ForwardCatchesUp(h: Host, block: AcceptedBlock, observed: ChainPoint, c: HostConfig)
    requires HostInv(h, c) && AdmitForward(h, block, observed, c).Ok?
    ensures
      var k := Handle(h, ForwardEvent(block, observed), c);
      && k.reader.point == block.point && k.reader.blocks == h.reader.blocks + [block] && k.generation == h.generation
      && CaughtUp(k, observed, h.tip, c)
  {
    hide Faithful, Durable, AdmitForward, Progressed, CaughtUp;
    var u := AdmitForward(h, block, observed, c).value.0;
    AdmittedExtends(h, block, observed, c);
    AdmittedPoint(h, block, observed, c);
    HandleKeeps(h, ForwardEvent(block, observed), c);
    var s := Published(h.(journal := AdmitForward(h, block, observed, c).value.1), u);
    AdmittedHead(h, block, observed, c);
    ProgressedIsCaughtUp(s, observed, c);
  }

  lemma AdmittedPoint(h: Host, block: AcceptedBlock, observed: ChainPoint, c: HostConfig)
    requires AdmitForward(h, block, observed, c).Ok?
    ensures AdmitForward(h, block, observed, c).value.0.cursor == block.point
  {
    hide ProjectBlock, Appended, IsPoint, EventFits, ProjectionFits;
  }

  lemma AdmittedHead(h: Host, block: AcceptedBlock, observed: ChainPoint, c: HostConfig)
    requires HostInv(h, c) && AdmitForward(h, block, observed, c).Ok?
    ensures AdmitForward(h, block, observed, c).value.1.head == block.point
  {
    hide Faithful, Durable, PrepareForward, EventFits, ProjectionFits;
  }

  /** An admitted rollback makes its target the head and forgets the retained tip. */
  lemma BackwardCatchesUp(h: Host, target: ChainPoint, observed: ChainPoint, c: HostConfig)
    requires HostInv(h, c) && (h.phase == Ready || h.phase == CatchingUp) && AdmitBackward(h, target, observed, c).Ok?
    ensures
      var k := Handle(h, BackwardEvent(target, observed), c);
      k.reader.point == target && k.generation == h.generation + 1 && CaughtUp(k, observed, None, c)
  {
    hide Faithful, Durable, PrepareBackward, RolledBack, Progressed, CaughtUp;
    var s := h.(phase := CatchingUp, generation := h.generation + 1);
    var admitted := AdmitBackward(s, target, observed, c);
    assert admitted == AdmitBackward(h, target, observed, c);
    CommitBackwardIsDurable(s, target, c);
    var k := Published(s.(journal := admitted.value.1), admitted.value.0).(tip := None);
    ProgressedIsCaughtUp(k, observed, c);
  }

  /** A reconciled intersection is a rollback, from any phase that may still reconcile. */
  lemma IntersectCatchesUp(h: Host, selected: ChainPoint, observed: ChainPoint, c: HostConfig)
    requires HostInv(h, c) && (h.phase == Connecting || h.phase == CatchingUp || h.phase == Ready || h.phase == Disconnected)
    requires AdmitBackward(h, selected, observed, c).Ok?
    ensures
      var k := Handle(h, IntersectEvent(selected, observed), c);
      k.reader.point == selected && k.generation == h.generation + 2 && CaughtUp(k, observed, None, c)
  {
    hide Faithful, Durable, AdmitBackward, Backwarded, CaughtUp;
    var s := h.(generation := h.generation + 1, phase := CatchingUp);
    SameAdmission(h, s, selected, observed, c);
    BackwardCatchesUp(s, selected, observed, c);
  }

  lemma SameAdmission(h: Host, s: Host, target: ChainPoint, observed: ChainPoint, c: HostConfig)
    requires h.reader == s.reader && h.journal == s.journal
    ensures AdmitBackward(h, target, observed, c) == AdmitBackward(s, target, observed, c)
  {
    hide PrepareBackward, RolledBack;
  }

  /**
   * A heartbeat in a session disconnects exactly when it reveals a fork or a retreat: behind the head, at the head's slot with
   * another block, or behind the retained tip. Otherwise it only advances the tip. Out of a session it is refused.
   */
  lemma HeartbeatIsExact(h: Host, observed: ChainPoint, c: HostConfig)
    requires HostInv(h, c)
    ensures
      var k, head := Handle(h, TipEvent(observed), c), h.reader.point;
      var conflicts :=
        || observed.slot < head.slot || (observed.slot == head.slot && observed.blockHash != head.blockHash)
        || (h.tip.Some? && observed.slot < h.tip.value.slot);
      if h.phase != Ready && h.phase != CatchingUp then k == h
      else if conflicts then k == h.(phase := Disconnected, generation := h.generation + 1, tip := Some(observed))
      else
        k.reader == h.reader && k.journal == h.journal && k.generation == h.generation && k.tip == Some(observed)
        && CaughtUp(k, observed, h.tip, c)
  {
    hide Faithful, Durable;
  }

  /** A block is admitted exactly in a session, within every budget, under a tip that fits it, if it projects and is new. */
  lemma AdmissionIsExact(h: Host, block: AcceptedBlock, observed: ChainPoint, c: HostConfig)
    ensures AdmitForward(h, block, observed, c).Ok? <==>
      && (h.phase == Ready || h.phase == CatchingUp)
      && TransactionBytes(block.transactions, c) <= c.limits.maxBlockBytes
      && block.point.slot <= observed.slot && (observed.slot == block.point.slot ==> observed.blockHash == block.point.blockHash)
      && HistoryBytes(h.journal.rows, c) + c.bodyBytes(block) <= c.limits.maxHistoryBytes
      && PrepareForward(h.reader, block, c.reader).Ok? && Appended(h.journal, block).Ok?
      && var u := PrepareForward(h.reader, block, c.reader).value;
         && |u.retained| <= c.limits.maxBlocks && |u.next.transactions| <= c.limits.maxTransactions
         && |u.next.utxos| <= c.limits.maxUtxos
         && |u.next.vaults| + |u.next.requests| + |u.next.claims| <= c.limits.maxRecords
  {
    hide PrepareForward, Appended, TransactionBytes, HistoryBytes;
  }

  /** What is not admitted fails the host, and a failure only counts a generation. */
  lemma RefusedFails(h: Host, block: AcceptedBlock, target: ChainPoint, observed: ChainPoint, c: HostConfig)
    ensures AdmitForward(h, block, observed, c).Err? ==>
      Handle(h, ForwardEvent(block, observed), c) == h.(phase := Failed, errored := true, generation := h.generation + 1)
    ensures (h.phase == Ready || h.phase == CatchingUp) && AdmitBackward(h, target, observed, c).Err? ==>
      Handle(h, BackwardEvent(target, observed), c) == h.(phase := Failed, errored := true, generation := h.generation + 2)
  {
    hide AdmitForward, PrepareBackward, RolledBack;
    SameAdmission(h, h.(phase := CatchingUp, generation := h.generation + 1), target, observed, c);
  }

  /** A rollback is admitted exactly under a tip that fits its target, if the reader and the journal both can. */
  lemma RollbackAdmissionIsExact(h: Host, target: ChainPoint, observed: ChainPoint, c: HostConfig)
    ensures AdmitBackward(h, target, observed, c).Ok? <==>
      && target.slot <= observed.slot && (observed.slot == target.slot ==> observed.blockHash == target.blockHash)
      && PrepareBackward(h.reader, target, c.reader).Ok?
      && RolledBack(h.journal, target, h.reader.point, c.reader.intersection).Ok?
  {
    hide PrepareBackward, RolledBack;
  }

  /** Disconnecting counts a generation and leaves a failed or stopped host where it is. */
  lemma DisconnectIsExact(h: Host, c: HostConfig)
    ensures
      Handle(h, DisconnectEvent, c)
      == h.(phase := if h.phase == Failed || h.phase == Stopped then h.phase else Disconnected, generation := h.generation + 1)
    ensures Handle(h, CloseEvent, c) == h.(phase := Stopped)
    ensures Handle(h, FailEvent, c) == h.(phase := Failed, errored := true, generation := h.generation + 1)
  {
  }

  /** Reads and lookups are served by a ready host alone, at its durable head, and lookups only when that is also the tip. */
  lemma ServiceMeans(h: Host)
    ensures CanRead(h) <==> h.phase == Ready && h.reader.point == h.journal.head
    ensures Lookup(h) == (if h.phase == Ready && h.reader.point == h.journal.head && h.tip == Some(h.reader.point)
                          then Some(LookupTarget(h.instance, h.generation, h.reader.point)) else None)
    ensures CanReconcile(h.phase) <==> h.phase in {Connecting, CatchingUp, Ready, Disconnected}
    ensures InSession(h.phase) <==> h.phase in {CatchingUp, Ready}
  {
  }

  /** The bytes that the budgets count: those of each transaction of a block, and of each block of the journal. */
  lemma {:induction false} BytesAddUp(transactions: seq<RawTransaction>, more: seq<RawTransaction>, c: HostConfig)
    ensures TransactionBytes(transactions + more, c) == TransactionBytes(transactions, c) + TransactionBytes(more, c)
    ensures |transactions| == 1 ==> TransactionBytes(transactions, c) == c.transactionBytes(transactions[0])
    decreases |transactions|
  {
    if transactions == [] {
      assert transactions + more == more;
    } else {
      assert (transactions + more)[1..] == transactions[1..] + more;
      BytesAddUp(transactions[1..], more, c);
    }
  }

  lemma {:induction false} HistoryAddsUp(rows: seq<AcceptedBlock>, more: seq<AcceptedBlock>, c: HostConfig)
    ensures HistoryBytes(rows + more, c) == HistoryBytes(rows, c) + HistoryBytes(more, c)
    ensures |rows| == 1 ==> HistoryBytes(rows, c) == c.bodyBytes(rows[0])
    decreases |more|
  {
    if more == [] {
      assert rows + more == rows;
    } else {
      assert (rows + more)[..|rows + more| - 1] == rows + more[..|more| - 1];
      HistoryAddsUp(rows, more[..|more| - 1], c);
    }
  }
}
