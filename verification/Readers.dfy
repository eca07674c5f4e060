/** The accepted-chain reader: private preparation, one-use publication, and rollback by replay. */
module Readers {
  import opened Results
  import opened Types
  import opened References
  import opened AcceptedTransactions
  import opened Projections
  import opened Projecting
  import opened Lifecycles

  datatype AcceptedBlock = AcceptedBlock(point: ChainPoint, parent: ChainPoint, transactions: seq<RawTransaction>)

  datatype ReaderConfig = ReaderConfig(
    network: NetworkBinding,
    builds: seq<ReviewedBuild>,
    intersection: ChainPoint,
    selected: Option<set<Hex>>)

  predicate IsHashChar(c: char) {
    '0' <= c <= '9' || 'a' <= c <= 'f'
  }

  predicate IsPoint(point: ChainPoint) {
    0 <= point.slot && |point.blockHash| == 64 && forall c <- point.blockHash :: IsHashChar(c)
  }

  function ProjectRaw(p: Projection, raw: RawTransaction, point: ChainPoint, config: ReaderConfig): Result<Projection> {
    var tx :- ReadAccepted(raw);
    ProjectTransaction(p, tx, point, config.network, config.builds, config.selected)
  }

  /** The projection after the first k transactions of a block. */
  function ProjectBlock(p: Projection, block: AcceptedBlock, k: nat, config: ReaderConfig): Result<Projection>
    requires k <= |block.transactions|
  {
    if k == 0 then Ok(p)
    else
      var q :- ProjectBlock(p, block, k - 1, config);
      ProjectRaw(q, block.transactions[k - 1], block.point, config)
  }

  /** The projection that a list of blocks yields from nothing. */
  function Replay(blocks: seq<AcceptedBlock>, config: ReaderConfig): Result<Projection> {
    if blocks == [] then Ok(EMPTY_PROJECTION)
    else
      var p :- Replay(blocks[..|blocks| - 1], config);
      var last := blocks[|blocks| - 1];
      ProjectBlock(p, last, |last.transactions|, config)
  }

  function Head(blocks: seq<AcceptedBlock>, config: ReaderConfig): ChainPoint {
    if blocks == [] then config.intersection else blocks[|blocks| - 1].point
  }

  /** Each block extends the one before it, at a later slot. */
  predicate Contiguous(blocks: seq<AcceptedBlock>, config: ReaderConfig) {
    forall i :: 0 <= i < |blocks| ==>
      && blocks[i].parent == Head(blocks[..i], config)
      && blocks[i].parent.slot < blocks[i].point.slot
      && IsPoint(blocks[i].point)
  }

  datatype ReaderState = ReaderState(blocks: seq<AcceptedBlock>, projection: Projection, point: ChainPoint, revision: nat)

  /** An update prepared at a revision, not yet visible to readers. */
  datatype Prepared = Prepared(next: Projection, retained: seq<AcceptedBlock>, cursor: ChainPoint, revision: nat)

  /** The published view is the replay of the retained blocks. */
  predicate Faithful(projection: Projection, blocks: seq<AcceptedBlock>, point: ChainPoint, config: ReaderConfig) {
    Contiguous(blocks, config) && point == Head(blocks, config) && Replay(blocks, config) == Ok(projection)
  }

  function InitialReader(config: ReaderConfig): ReaderState {
    ReaderState([], EMPTY_PROJECTION, config.intersection, 0)
  }

  /** Position of the first retained block at a point. */
  function FindBlock(blocks: seq<AcceptedBlock>, point: ChainPoint): (r: Option<nat>)
    ensures r.Some? ==> r.value < |blocks| && blocks[r.value].point == point
    ensures r.None? ==> forall i :: 0 <= i < |blocks| ==> blocks[i].point != point
  {
    if blocks == [] then None
    else
      var earlier := FindBlock(blocks[..|blocks| - 1], point);
      if earlier.Some? then earlier
      else if blocks[|blocks| - 1].point == point then Some(|blocks| - 1)
      else None
  }

  function PrepareForward(s: ReaderState, block: AcceptedBlock, config: ReaderConfig): Result<Prepared> {
    var retained := s.blocks + [block];
    :- Need(IsPoint(block.point), InvalidShape);
    :- Need(block.parent == s.point && block.parent.slot < block.point.slot, Noncontiguous);
    var next :- ProjectBlock(s.projection, block, |block.transactions|, config);
    Ok(Prepared(next, retained, block.point, s.revision))
  }

  function RetainedTo(blocks: seq<AcceptedBlock>, point: ChainPoint, config: ReaderConfig): (r: Option<seq<AcceptedBlock>>)
    ensures r.Some? ==> r.value <= blocks && Head(r.value, config) == point
  {
    if point == config.intersection then Some([])
    else
      var index := FindBlock(blocks, point);
      if index.None? then None else Some(blocks[..index.value + 1])
  }

  function PrepareBackward(s: ReaderState, point: ChainPoint, config: ReaderConfig): Result<Prepared> {
    var retained := RetainedTo(s.blocks, point, config);
    :- Need(IsPoint(point), InvalidShape);
    :- Need(retained.Some?, UnknownPoint);
    var next :- Replay(retained.value, config);
    Ok(Prepared(next, retained.value, point, s.revision))
  }

  lemma {:induction false} BlockFailsEarly(p: Projection, block: AcceptedBlock, k: nat, n: nat, config: ReaderConfig)
    requires k <= n <= |block.transactions| && ProjectBlock(p, block, k, config).Err?
    ensures ProjectBlock(p, block, n, config) == ProjectBlock(p, block, k, config)
  {
    hide ProjectRaw;
    if k < n {
      BlockFailsEarly(p, block, k, n - 1, config);
    }
  }

  lemma {:induction false} ReplayFailsEarly(blocks: seq<AcceptedBlock>, k: nat, config: ReaderConfig)
    requires k <= |blocks| && Replay(blocks[..k], config).Err?
    ensures Replay(blocks, config) == Replay(blocks[..k], config)
  {
    hide ProjectBlock;
    if k == |blocks| {
      assert blocks[..k] == blocks;
    } else {
      assert blocks[..|blocks| - 1][..k] == blocks[..k];
      ReplayFailsEarly(blocks[..|blocks| - 1], k, config);
    }
  }

  /** A prefix of a replayable history is replayable. */
  lemma PrefixReplays(blocks: seq<AcceptedBlock>, k: nat, config: ReaderConfig)
    requires k <= |blocks| && Replay(blocks, config).Ok?
    ensures Replay(blocks[..k], config).Ok?
  {
    if Replay(blocks[..k], config).Err? {
      ReplayFailsEarly(blocks, k, config);
    }
  }

  lemma PrefixIsContiguous(blocks: seq<AcceptedBlock>, k: nat, config: ReaderConfig)
    requires k <= |blocks| && Contiguous(blocks, config)
    ensures Contiguous(blocks[..k], config)
  {
    forall i | 0 <= i < k ensures blocks[..k][i].parent == Head(blocks[..k][..i], config) {
      assert blocks[..k][..i] == blocks[..i];
    }
  }

  lemma ContiguousExtends(blocks: seq<AcceptedBlock>, block: AcceptedBlock, config: ReaderConfig)
    requires Contiguous(blocks, config)
    requires block.parent == Head(blocks, config) && block.parent.slot < block.point.slot && IsPoint(block.point)
    ensures Contiguous(blocks + [block], config)
  {
    hide IsPoint, Head;
    var all := blocks + [block];
    forall i | 0 <= i < |all| ensures all[i].parent == Head(all[..i], config) {
      assert all[..i] == blocks[..i];
      assert i == |blocks| ==> all[..i] == blocks;
    }
  }

  lemma LastIsContiguous(blocks: seq<AcceptedBlock>, config: ReaderConfig)
    requires Contiguous(blocks, config) && blocks != []
    ensures
      var earlier, last := blocks[..|blocks| - 1], blocks[|blocks| - 1];
      Contiguous(earlier, config) && last.parent == Head(earlier, config) && last.parent.slot < last.point.slot
  {
    PrefixIsContiguous(blocks, |blocks| - 1, config);
  }

  /** What is prepared from a faithful reader is faithful to the history it would publish. */
  lemma ForwardIsFaithful(s: ReaderState, block: AcceptedBlock, config: ReaderConfig)
    requires Faithful(s.projection, s.blocks, s.point, config) && PrepareForward(s, block, config).Ok?
    ensures
      var u := PrepareForward(s, block, config).value;
      Faithful(u.next, u.retained, u.cursor, config) && u.revision == s.revision && u.retained == s.blocks + [block]
  {
    hide ProjectBlock, IsPoint, Contiguous;
    var retained := s.blocks + [block];
    assert retained[..|retained| - 1] == s.blocks;
    ContiguousExtends(s.blocks, block, config);
  }

  lemma BackwardIsFaithful(s: ReaderState, point: ChainPoint, config: ReaderConfig)
    requires Faithful(s.projection, s.blocks, s.point, config) && PrepareBackward(s, point, config).Ok?
    ensures
      var u := PrepareBackward(s, point, config).value;
      Faithful(u.next, u.retained, u.cursor, config) && u.revision == s.revision && u.retained <= s.blocks
  {
    hide IsPoint, Contiguous, Replay;
    var u := PrepareBackward(s, point, config).value;
    assert u.retained == s.blocks[..|u.retained|];
    PrefixIsContiguous(s.blocks, |u.retained|, config);
  }

  /** Rolling back to any retained point, or to the intersection, always succeeds. */
  lemma RollbackSucceeds(s: ReaderState, k: nat, config: ReaderConfig)
    requires Faithful(s.projection, s.blocks, s.point, config) && k <= |s.blocks| && IsPoint(config.intersection)
    ensures
      var target := Head(s.blocks[..k], config);
      && PrepareBackward(s, target, config).Ok?
      && PrepareBackward(s, target, config).value.retained == s.blocks[..k]
  {
    hide Replay, IsPoint;
    var target := Head(s.blocks[..k], config);
    PointsAreDistinct(s.blocks, config);
    var retained := RetainedTo(s.blocks, target, config);
    if k > 0 {
      assert s.blocks[k - 1].point == target;
      assert retained.value == s.blocks[..k];
    }
    PrefixReplays(s.blocks, k, config);
  }

  /** Slots strictly increase, so no two retained points coincide and none is the intersection. */
  lemma {:induction false} PointsAreDistinct(blocks: seq<AcceptedBlock>, config: ReaderConfig)
    requires Contiguous(blocks, config)
    ensures forall i :: 0 <= i < |blocks| ==> config.intersection.slot < blocks[i].point.slot
    ensures forall i, j :: 0 <= i < j < |blocks| ==> blocks[i].point.slot < blocks[j].point.slot
  {
    hide Contiguous;
    if blocks != [] {
      var earlier, last := blocks[..|blocks| - 1], blocks[|blocks| - 1];
      LastIsContiguous(blocks, config);
      PointsAreDistinct(earlier, config);
      forall i | 0 <= i < |earlier| ensures blocks[i].point.slot < last.point.slot {
        assert earlier[i] == blocks[i];
        assert earlier[i].point.slot <= earlier[|earlier| - 1].point.slot;
      }
      forall i | 0 <= i < |blocks| ensures config.intersection.slot < blocks[i].point.slot {
        if i < |earlier| {
          assert earlier[i] == blocks[i];
        } else if |earlier| > 0 {
          assert config.intersection.slot < earlier[|earlier| - 1].point.slot;
        }
      }
      forall i, j | 0 <= i < j < |blocks| ensures blocks[i].point.slot < blocks[j].point.slot {
        if j < |earlier| {
          assert earlier[i] == blocks[i] && earlier[j] == blocks[j];
        }
      }
    }
  }

  /** The in-memory reader. Snapshots are values: publication replaces them and never mutates them. */
  class VaultReader {
    const config: ReaderConfig
    var blocks: seq<AcceptedBlock>
    var projection: Projection
    var point: ChainPoint
    var revision: nat

    function State(): ReaderState
      reads this
    {
      ReaderState(blocks, projection, point, revision)
    }

    predicate Valid()
      reads this
    {
      Faithful(projection, blocks, point, config)
    }

    constructor (config: ReaderConfig)
      ensures this.config == config && State() == InitialReader(config) && Valid()
    {
      this.config := config;
      blocks, projection, point, revision := [], EMPTY_PROJECTION, config.intersection, 0;
    }

    /** Validate on a private copy; helpers mutate it and may fail after partial work. */
    method Forward(block: AcceptedBlock) returns (update: Result<PreparedUpdate>)
      requires Valid()
      ensures update.Ok? <==> PrepareForward(State(), block, config).Ok?
      ensures update.Ok? ==>
        && fresh(update.value) && update.value.reader == this && update.value.Usable()
        && Ok(update.value.content) == PrepareForward(State(), block, config)
    {
      hide ProjectBlock, Faithful;
      if !IsPoint(block.point) || block.parent != point || block.point.slot <= block.parent.slot {
        return Err(Noncontiguous);
      }
      var next := new Staging(projection);
      var done := ExtendStaging(next, block);
      if done.Fail? {
        return Err(done.error);
      }
      ForwardIsFaithful(State(), block, config);
      var token := new PreparedUpdate(this, Prepared(next.View(), blocks + [block], block.point, revision));
      return Ok(token);
    }

    /** Project one block's transactions, in order, into a staging copy. */
    method ExtendStaging(next: Staging, block: AcceptedBlock) returns (done: Outcome)
      modifies next
      ensures done.Pass? <==> ProjectBlock(old(next.View()), block, |block.transactions|, config).Ok?
      ensures done.Pass? ==> ProjectBlock(old(next.View()), block, |block.transactions|, config) == Ok(next.View())
    {
      hide ProjectTransaction;
      ghost var start := next.View();
      for k := 0 to |block.transactions|
        invariant ProjectBlock(start, block, k, config) == Ok(next.View())
      {
        var tx := ReadAcceptedTransaction(block.transactions[k]);
        if tx.Err? {
          BlockFailsEarly(start, block, k + 1, |block.transactions|, config);
          return Fail(tx.error);
        }
        var projected := next.Project(tx.value, block.point, config.network, config.builds, config.selected);
        if projected.Fail? {
          BlockFailsEarly(start, block, k + 1, |block.transactions|, config);
          return projected;
        }
      }
      return Pass;
    }

    /** Rebuild the retained prefix from nothing. */
    method Backward(target: ChainPoint) returns (update: Result<PreparedUpdate>)
      requires Valid()
      ensures update.Ok? <==> PrepareBackward(State(), target, config).Ok?
      ensures update.Ok? ==>
        && fresh(update.value) && update.value.reader == this && update.value.Usable()
        && Ok(update.value.content) == PrepareBackward(State(), target, config)
    {
      hide ProjectBlock, RetainedTo, Faithful;
      var found := RetainedTo(blocks, target, config);
      if !IsPoint(target) || found.None? {
        return Err(UnknownPoint);
      }
      var retained := found.value;
      var next := new Staging(EMPTY_PROJECTION);
      for b := 0 to |retained|
        invariant fresh(next)
        invariant Replay(retained[..b], config) == Ok(next.View())
      {
        assert retained[..b + 1][..b] == retained[..b];
        var done := ExtendStaging(next, retained[b]);
        if done.Fail? {
          ReplayFailsEarly(retained, b + 1, config);
          return Err(done.error);
        }
      }
      assert retained[..|retained|] == retained;
      BackwardIsFaithful(State(), target, config);
      var token := new PreparedUpdate(this, Prepared(next.View(), retained, target, revision));
      return Ok(token);
    }
  }

  /** A one-use publication token. */
  class PreparedUpdate {
    const reader: VaultReader
    const content: Prepared
    var published: bool

    constructor (reader: VaultReader, content: Prepared)
      ensures this.reader == reader && this.content == content && !published
    {
      this.reader, this.content, published := reader, content, false;
    }

    /** What every prepared token carries: a faithful view. */
    predicate Usable()
      reads this
    {
      !published && Faithful(content.next, content.retained, content.cursor, reader.config)
    }

    /** Reused or overtaken tokens are rejected before any mutation. */
    method Publish() returns (done: Outcome)
      requires reader.Valid() && Faithful(content.next, content.retained, content.cursor, reader.config)
      modifies this, reader
      ensures done.Pass? <==> !old(published) && content.revision == old(reader.revision)
      ensures done.Pass? ==>
        && published
        && reader.State() == ReaderState(content.retained, content.next, content.cursor, old(reader.revision) + 1)
      ensures done.Fail? ==> reader.State() == old(reader.State()) && published == old(published)
      ensures reader.Valid()
    {
      hide Faithful;
      if published || content.revision != reader.revision {
        return Fail(Stale);
      }
      reader.blocks := content.retained;
      reader.projection := content.next;
      reader.point := content.cursor;
      reader.revision := reader.revision + 1;
      published := true;
      return Pass;
    }
  }

  /** A reader together with every token ever prepared from it. */
  datatype Session = Session(state: ReaderState, tokens: seq<Prepared>, published: set<nat>)

  datatype ReaderOp = ForwardOp(block: AcceptedBlock) | BackwardOp(target: ChainPoint) | PublishOp(token: nat)

  /** Failed preparations leave nothing behind; abandoned ones simply stay unpublished. */
  function Apply(s: Session, op: ReaderOp, config: ReaderConfig): Session {
    match op
    case ForwardOp(block) =>
      var u := PrepareForward(s.state, block, config);
      if u.Ok? then s.(tokens := s.tokens + [u.value]) else s
    case BackwardOp(target) =>
      var u := PrepareBackward(s.state, target, config);
      if u.Ok? then s.(tokens := s.tokens + [u.value]) else s
    case PublishOp(token) =>
      if token < |s.tokens| && token !in s.published && s.tokens[token].revision == s.state.revision then
        var u := s.tokens[token];
        Session(ReaderState(u.retained, u.next, u.cursor, s.state.revision + 1), s.tokens, s.published + {token})
      else s
  }

  function RunOps(s: Session, ops: seq<ReaderOp>, config: ReaderConfig): Session {
    if ops == [] then s else Apply(RunOps(s, ops[..|ops| - 1], config), ops[|ops| - 1], config)
  }

  ghost predicate SessionInv(s: Session, config: ReaderConfig) {
    && Faithful(s.state.projection, s.state.blocks, s.state.point, config)
    && (forall i :: 0 <= i < |s.tokens| ==>
          Faithful(s.tokens[i].next, s.tokens[i].retained, s.tokens[i].cursor, config) && s.tokens[i].revision <= s.state.revision)
    && (forall i <- s.published :: i < |s.tokens| && s.tokens[i].revision < s.state.revision)
    && (forall i, j :: i in s.published && j in s.published && i != j ==> s.tokens[i].revision != s.tokens[j].revision)
  }

  lemma ApplyKeepsInv(s: Session, op: ReaderOp, config: ReaderConfig)
    requires SessionInv(s, config)
    ensures SessionInv(Apply(s, op, config), config)
  {
    hide Faithful, PrepareForward, PrepareBackward;
    match op
    case ForwardOp(block) =>
      if PrepareForward(s.state, block, config).Ok? {
        ForwardIsFaithful(s.state, block, config);
      }
    case BackwardOp(target) =>
      if PrepareBackward(s.state, target, config).Ok? {
        BackwardIsFaithful(s.state, target, config);
      }
    case PublishOp(token) =>
  }

  /**
   * Whatever is forwarded, rolled back, abandoned or rejected, in any order: the published view is the replay of
   * the retained blocks, and of all tokens prepared at one revision at most one was ever published.
   */
  lemma {:induction false} EveryRunIsFaithful(ops: seq<ReaderOp>, config: ReaderConfig)
    ensures
      var s := RunOps(Session(InitialReader(config), [], {}), ops, config);
      && SessionInv(s, config)
      && Replay(s.state.blocks, config) == Ok(s.state.projection)
      && forall i, j :: i in s.published && j in s.published && s.tokens[i].revision == s.tokens[j].revision ==> i == j
  {
    hide Apply;
    if ops != [] {
      EveryRunIsFaithful(ops[..|ops| - 1], config);
      ApplyKeepsInv(RunOps(Session(InitialReader(config), [], {}), ops[..|ops| - 1], config), ops[|ops| - 1], config);
    }
  }

  /**
   * A rollback followed by a competing branch leaves no trace: two runs that retain the same blocks serve the same
   * view, however they got there.
   */
  lemma BranchesLeaveNoTrace(ops: seq<ReaderOp>, other: seq<ReaderOp>, config: ReaderConfig)
    requires
      var start := Session(InitialReader(config), [], {});
      RunOps(start, ops, config).state.blocks == RunOps(start, other, config).state.blocks
    ensures
      var start := Session(InitialReader(config), [], {});
      var s, t := RunOps(start, ops, config).state, RunOps(start, other, config).state;
      s.projection == t.projection && s.point == t.point
  {
    hide RunOps, Replay;
    EveryRunIsFaithful(ops, config);
    EveryRunIsFaithful(other, config);
  }

  /** The feed assumption, transaction by transaction along a block. */
  ghost predicate FeedBlock(p: Projection, block: AcceptedBlock, config: ReaderConfig) {
    forall k :: 0 <= k < |block.transactions| ==>
      && ReadAccepted(block.transactions[k]).Ok?
      && ProjectBlock(p, block, k, config).Ok?
      && FeedOk(ProjectBlock(p, block, k, config).value, ReadAccepted(block.transactions[k]).value)
  }

  ghost predicate Feed(blocks: seq<AcceptedBlock>, config: ReaderConfig) {
    forall i :: 0 <= i < |blocks| ==>
      Replay(blocks[..i], config).Ok? && FeedBlock(Replay(blocks[..i], config).value, blocks[i], config)
  }

  lemma {:induction false} BlockKeepsLifecycle(p: Projection, block: AcceptedBlock, k: nat, config: ReaderConfig)
    requires Lifecycle(p) && FeedBlock(p, block, config) && k <= |block.transactions|
    requires ProjectBlock(p, block, k, config).Ok?
    ensures Lifecycle(ProjectBlock(p, block, k, config).value)
  {
    hide Lifecycle, ProjectTransaction, FeedOk, ReadAccepted;
    if k > 0 {
      BlockKeepsLifecycle(p, block, k - 1, config);
      var q := ProjectBlock(p, block, k - 1, config).value;
      var tx := ReadAccepted(block.transactions[k - 1]).value;
      ProjectTransactionKeepsLifecycle(q, tx, block.point, config.network, config.builds, config.selected);
    }
  }

  /** Every projection a reader can publish over an admissible feed satisfies the lifecycle invariant. */
  lemma {:induction false} ReplayIsLifecycle(blocks: seq<AcceptedBlock>, config: ReaderConfig)
    requires Feed(blocks, config) && Replay(blocks, config).Ok?
    ensures Lifecycle(Replay(blocks, config).value)
  {
    hide Lifecycle, ProjectBlock, FeedBlock;
    if blocks == [] {
      EmptyIsLifecycle();
    } else {
      var earlier, last := blocks[..|blocks| - 1], blocks[|blocks| - 1];
      forall i | 0 <= i < |earlier|
        ensures Replay(earlier[..i], config).Ok? && FeedBlock(Replay(earlier[..i], config).value, earlier[i], config)
      {
        assert earlier[..i] == blocks[..i];
      }
      ReplayIsLifecycle(earlier, config);
      BlockKeepsLifecycle(Replay(earlier, config).value, last, |last.transactions|, config);
    }
  }

  /** A block is prepared exactly at a well-formed point on top of the head, at a later slot, if each transaction projects. */
  lemma ForwardIsExact(s: ReaderState, block: AcceptedBlock, config: ReaderConfig)
    ensures PrepareForward(s, block, config).Ok? <==>
      && 0 <= block.point.slot && |block.point.blockHash| == 64
      && (forall c <- block.point.blockHash :: c in "0123456789abcdef")
      && block.parent == s.point && block.parent.slot < block.point.slot
      && ProjectBlock(s.projection, block, |block.transactions|, config).Ok?
    ensures PrepareForward(s, block, config).Ok? ==>
      PrepareForward(s, block, config).value
      == Prepared(ProjectBlock(s.projection, block, |block.transactions|, config).value, s.blocks + [block], block.point, s.revision)
  {
    hide ProjectBlock;
    forall c: char ensures IsHashChar(c) <==> c in "0123456789abcdef" {
      HashChars(c);
    }
  }

  lemma HashChars(c: char)
    ensures IsHashChar(c) <==> c in "0123456789abcdef"
  {
    var digits := "0123456789abcdef";
    assert forall i :: 0 <= i < 10 ==> digits[i] as int == '0' as int + i;
    assert forall i :: 10 <= i < 16 ==> digits[i] as int == 'a' as int + i - 10;
    if '0' <= c <= '9' {
      assert digits[c as int - '0' as int] == c;
    } else if 'a' <= c <= 'f' {
      assert digits[c as int - 'a' as int + 10] == c;
    }
  }

  /** A rollback is prepared exactly to the intersection or a retained point, if what it keeps replays; and it keeps that prefix. */
  lemma BackwardIsExact(s: ReaderState, point: ChainPoint, config: ReaderConfig)
    requires Faithful(s.projection, s.blocks, s.point, config)
    ensures PrepareBackward(s, point, config).Ok? <==>
      && 0 <= point.slot && |point.blockHash| == 64 && (forall c <- point.blockHash :: IsHashChar(c))
      && (point == config.intersection || exists i :: 0 <= i < |s.blocks| && s.blocks[i].point == point)
    ensures PrepareBackward(s, point, config).Ok? ==>
      var u := PrepareBackward(s, point, config).value;
      && u.cursor == point && u.revision == s.revision && Replay(u.retained, config) == Ok(u.next) && u.retained <= s.blocks
      && (if point == config.intersection then u.retained == [] else u.retained != [] && u.retained[|u.retained| - 1].point == point)
  {
    hide Contiguous, Replay;
    var retained := RetainedTo(s.blocks, point, config);
    if retained.Some? {
      assert retained.value == s.blocks[..|retained.value|];
      PrefixReplays(s.blocks, |retained.value|, config);
    }
  }
}
