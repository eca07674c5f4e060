/** How records evolve: along the feed nothing is overwritten, and a request's status only moves forward. */
module Progress {
  import opened Results
  import opened Types
  import opened References
  import opened Planning
  import opened AcceptedTransactions
  import opened Projections
  import opened Projecting
  import opened Lifecycles
  import opened Readers

  /** Pending may settle or be refunded, settled may be delivered; what was recorded stays recorded. */
  predicate Advances(r: RequestRecord, s: RequestRecord) {
    && s == r.(status := s.status, settlement := s.settlement, completion := s.completion)
    && (r.settlement.Some? ==> s.settlement == r.settlement)
    && (r.completion.Some? ==> s.completion == r.completion)
    && match r.status
       case PendingEscrow => true
       case Claimable => s.status.Claimable? || s.status.Delivered?
       case Delivered => s == r
       case Refunded => s == r
  }

  predicate ClaimAdvances(c: ClaimRecord, d: ClaimRecord) {
    d == c.(delivered := d.delivered) && (c.delivered ==> d.delivered)
  }

  /** Every record of p is still a record of q, advanced or unchanged. */
  ghost predicate Progressed(p: Projection, q: Projection) {
    && (forall k <- p.requests :: k in q.requests && Advances(p.requests[k], q.requests[k]))
    && (forall k <- p.claims :: k in q.claims && ClaimAdvances(p.claims[k], q.claims[k]))
  }

  lemma SameRecordsProgress(p: Projection, q: Projection)
    requires q.requests == p.requests && q.claims == p.claims
    ensures Progressed(p, q)
  {
  }

  lemma ProgressIsTransitive(p: Projection, q: Projection, r: Projection)
    requires Progressed(p, q) && Progressed(q, r)
    ensures Progressed(p, r)
  {
    forall k <- p.requests ensures k in r.requests && Advances(p.requests[k], r.requests[k]) {
      assert Advances(p.requests[k], q.requests[k]) && Advances(q.requests[k], r.requests[k]);
    }
    forall k <- p.claims ensures k in r.claims && ClaimAdvances(p.claims[k], r.claims[k]) {
      assert ClaimAdvances(p.claims[k], q.claims[k]) && ClaimAdvances(q.claims[k], r.claims[k]);
    }
  }

  /** A settlement's Claim is new: an older one at its output would be paired with another request. */
  lemma SettlementProgresses(
    p: Projection, live: Outputs, consumed: set<OutRef>, before: set<Hex>, vault: VaultRecord, tx: AcceptedTransaction,
    entry: SettleEntry, point: ChainPoint, network: NetworkBinding)
    requires Midway(p, live, consumed, tx, before)
    requires RecordSettlement(p, vault, tx, entry, point, network).Ok?
    ensures Progressed(p, RecordSettlement(p, vault, tx, entry, point, network).value)
  {
    hide RequestOfSource, OrderFits, ClaimOfSource, VaultLinked, RecordSettlement, RefId;
    var q := RecordSettlement(p, vault, tx, entry, point, network).value;
    forall k <- p.requests ensures p.requests[k].ref == k {
      assert RequestLinked(p, k, live, consumed);
    }
    var key, source := RecordSettlementParts(p, vault, tx, entry, point, network);
    assert RequestLinked(p, key, live, consumed);
    assert source.ref !in p.claims by {
      if source.ref in p.claims {
        assert ClaimLinked(p, source.ref, live, consumed);
        SameClaimSameRequest(p.claims[source.ref], q.claims[source.ref]);
      }
    }
  }

  lemma {:induction false} SettlementsProgress(
    p: Projection, live: Outputs, consumed: set<OutRef>, before: set<Hex>, vault: VaultRecord, tx: AcceptedTransaction,
    entries: seq<SettleEntry>, k: nat, point: ChainPoint, network: NetworkBinding)
    requires k <= |entries| && Midway(p, live, consumed, tx, before)
    requires RecordSettlements(p, vault, tx, entries, k, point, network).Ok?
    ensures Progressed(p, RecordSettlements(p, vault, tx, entries, k, point, network).value)
  {
    hide Midway, Progressed, RecordSettlement;
    if k == 0 {
      SameRecordsProgress(p, p);
    } else {
      var q := RecordSettlements(p, vault, tx, entries, k - 1, point, network).value;
      SettlementsProgress(p, live, consumed, before, vault, tx, entries, k - 1, point, network);
      var after := RecordSettlementsKeep(p, live, consumed, before, vault, tx, entries, k - 1, point, network);
      SettlementProgresses(q, live, after, before, vault, tx, entries[k - 1], point, network);
      ProgressIsTransitive(p, q, RecordSettlements(p, vault, tx, entries, k, point, network).value);
    }
  }

  lemma VisitProgresses(
    p: Projection, live: Outputs, consumed: set<OutRef>, before: set<Hex>, policy: Hex, tx: AcceptedTransaction,
    point: ChainPoint, network: NetworkBinding)
    requires Midway(p, live, consumed, tx, before) && VisitVault(p, policy, tx, point, network).Ok?
    ensures Progressed(p, VisitVault(p, policy, tx, point, network).value)
  {
    hide Midway, Progressed, RecordSettlements, SuccessorState;
    var q := VisitVault(p, policy, tx, point, network).value;
    SameRecordsProgress(p, p);
    if policy in p.vaults && p.vaults[policy].state.ref in tx.inputs {
      var vault := p.vaults[policy];
      var action := ActionOf(tx, vault.state.ref).value.state;
      var settled := p;
      if action.Batch? {
        SettlementsProgress(p, live, consumed, before, vault, tx, action.entries, |action.entries|, point, network);
        settled := RecordSettlements(p, vault, tx, action.entries, |action.entries|, point, network).value;
      }
      SameRecordsProgress(settled, q);
      ProgressIsTransitive(p, settled, q);
    }
  }

  lemma {:induction false} VisitsProgress(
    p: Projection, live: Outputs, before: set<Hex>, k: nat, tx: AcceptedTransaction, point: ChainPoint, network: NetworkBinding)
    requires Midway(p, live, {}, tx, before) && k <= |p.order|
    requires VisitVaults(p, p.order, k, tx, point, network).Ok?
    ensures Progressed(p, VisitVaults(p, p.order, k, tx, point, network).value)
  {
    hide Midway, Progressed, VisitVault;
    if k == 0 {
      SameRecordsProgress(p, p);
    } else {
      var q := VisitVaults(p, p.order, k - 1, tx, point, network).value;
      VisitsProgress(p, live, before, k - 1, tx, point, network);
      var after := VisitVaultsKeep(p, live, before, k - 1, tx, point, network);
      VisitProgresses(q, live, after, before, p.order[k - 1], tx, point, network);
      ProgressIsTransitive(p, q, VisitVaults(p, p.order, k, tx, point, network).value);
    }
  }

  /** A spent Claim belongs to a settled request that was not completed before. */
  lemma SpentClaimIsOpen(
    p: Projection, live: Outputs, consumed: set<OutRef>, before: set<Hex>, ref: OutRef, tx: AcceptedTransaction)
    requires Midway(p, live, consumed, tx, before) && ref in tx.inputs && ref in p.claims && ref !in consumed
    ensures p.claims[ref].request in p.requests
    ensures p.requests[p.claims[ref].request].status.Claimable? && p.requests[p.claims[ref].request].completion.None?
  {
    hide RequestOfSource, ClaimOfSource, VaultLinked, OrderFits, SeenIn;
    var i :| 0 <= i < |tx.inputs| && tx.inputs[i] == ref;
    assert ClaimLinked(p, ref, live, consumed);
    assert RequestLinked(p, p.claims[ref].request, live, consumed);
  }

  lemma DeliveryProgresses(
    p: Projection, live: Outputs, consumed: set<OutRef>, before: set<Hex>, ref: OutRef, tx: AcceptedTransaction, point: ChainPoint)
    requires Midway(p, live, consumed, tx, before) && ref in tx.inputs && ref in p.claims && ref !in consumed
    requires DeliverConsumed(p, ref, tx, point).Ok?
    ensures Progressed(p, DeliverConsumed(p, ref, tx, point).value)
  {
    hide Midway, DeliverConsumed;
    SpentClaimIsOpen(p, live, consumed, before, ref, tx);
    var completion := DeliverConsumedParts(p, ref, tx, point);
  }

  lemma ConsumeProgresses(
    p: Projection, live: Outputs, consumed: set<OutRef>, before: set<Hex>, ref: OutRef, tx: AcceptedTransaction, point: ChainPoint)
    requires Midway(p, live, consumed, tx, before) && ref in tx.inputs && (ref in p.claims ==> ref !in consumed)
    requires Consume(p, ref, tx, point).Ok?
    ensures Progressed(p, Consume(p, ref, tx, point).value)
  {
    hide Midway, ActionOf, FindOutput;
    if ref in p.claims {
      MidwayDisjoint(p, live, consumed, tx, before);
      DeliveryProgresses(p, live, consumed, before, ref, tx, point);
    } else {
      PendingIsOpen(p, live, consumed, before, ref, tx);
    }
  }

  lemma PendingIsOpen(
    p: Projection, live: Outputs, consumed: set<OutRef>, before: set<Hex>, ref: OutRef, tx: AcceptedTransaction)
    requires Midway(p, live, consumed, tx, before)
    ensures ref in p.requests && p.requests[ref].status.PendingEscrow? ==>
      p.requests[ref].settlement.None? && p.requests[ref].completion.None?
  {
    hide RequestOfSource, ClaimLinked, VaultLinked, OrderFits;
    if ref in p.requests {
      assert RequestLinked(p, ref, live, consumed);
    }
  }

  lemma {:induction false} ConsumptionProgresses(
    p: Projection, live: Outputs, consumed: set<OutRef>, before: set<Hex>, k: nat, tx: AcceptedTransaction, point: ChainPoint)
    requires Midway(p, live, consumed, tx, before) && k <= |tx.inputs| && consumed <= p.requests.Keys
    requires ConsumeInputs(p, k, tx, point).Ok?
    ensures Progressed(p, ConsumeInputs(p, k, tx, point).value)
  {
    hide Consume, Linked, Acting, Progressed;
    if k == 0 {
      SameRecordsProgress(p, p);
    } else {
      var q := ConsumeInputs(p, k - 1, tx, point).value;
      ConsumptionProgresses(p, live, consumed, before, k - 1, tx, point);
      ConsumeInputsKeep(p, live, consumed, before, k - 1, tx, point);
      MidwayDisjoint(p, live, consumed, tx, before);
      InputsAreDistinct(live, tx, before, k - 1);
      var earlier := consumed + set i | 0 <= i < k - 1 :: tx.inputs[i];
      ConsumeProgresses(q, live, earlier, before, tx.inputs[k - 1], tx, point);
      ProgressIsTransitive(p, q, ConsumeInputs(p, k, tx, point).value);
    }
  }

  lemma {:induction false} AdditionsKeepRecords(p: Projection, vaults: seq<VaultRecord>, k: nat, selected: Option<set<Hex>>)
    requires k <= |vaults| && AddVaults(p, vaults, k, selected).Ok?
    ensures
      var q := AddVaults(p, vaults, k, selected).value;
      q.requests == p.requests && q.claims == p.claims
  {
    if k > 0 {
      AdditionsKeepRecords(p, vaults, k - 1, selected);
    }
  }

  /** New outputs only add requests, under references that no earlier record has. */
  lemma {:induction false} OutputsProgress(p: Projection, k: nat, tx: AcceptedTransaction, before: set<Hex>, point: ChainPoint, network: NetworkBinding)
    requires k <= |tx.outputs| && SeenIn(p.requests.Keys, before) && tx.id !in before
    requires forall i :: 0 <= i < |tx.outputs| ==> tx.outputs[i].ref.txId == tx.id
    ensures
      var q := AddOutputs(p, k, tx, point, network);
      && q.claims == p.claims
      && forall ref <- p.requests :: ref in q.requests && q.requests[ref] == p.requests[ref]
  {
    hide Recognize;
    if k > 0 {
      OutputsProgress(p, k - 1, tx, before, point, network);
    }
  }

  lemma ActionsProgress(
    p: Projection, tx: AcceptedTransaction, point: ChainPoint, network: NetworkBinding, builds: seq<ReviewedBuild>,
    selected: Option<set<Hex>>)
    requires Lifecycle(p) && FeedOk(p, tx) && tx.id !in p.transactions
    requires ProjectActions(p.(transactions := p.transactions + {tx.id}), tx, point, network, builds, selected).Ok?
    ensures Progressed(p, ProjectActions(p.(transactions := p.transactions + {tx.id}), tx, point, network, builds, selected).value)
  {
    hide VisitVaults, ConsumeInputs, AddVaults, Midway, Lifecycle, FeedOk, Live, Progressed;
    var seen := p.(transactions := p.transactions + {tx.id});
    SameRecordsProgress(p, seen);
    if tx.valid {
      BeginTransaction(p, tx);
      var live, before := Live(p, tx), p.transactions;
      VisitsProgress(seen, live, before, |seen.order|, tx, point, network);
      var settled := VisitVaultsKeep(seen, live, before, |seen.order|, tx, point, network);
      var advanced := VisitVaults(seen, seen.order, |seen.order|, tx, point, network).value;
      ConsumptionProgresses(advanced, live, settled, before, |tx.inputs|, tx, point);
      var consumed := ConsumeInputs(advanced, |tx.inputs|, tx, point).value;
      var discovered := DiscoverGenesis(tx, builds, point, network).value;
      AdditionsKeepRecords(consumed, discovered, |discovered|, selected);
      var acted := AddVaults(consumed, discovered, |discovered|, selected).value;
      SameRecordsProgress(consumed, acted);
      ProgressIsTransitive(seen, advanced, consumed);
      ProgressIsTransitive(seen, consumed, acted);
      ProgressIsTransitive(p, seen, acted);
    }
  }

  /** No accepted transaction overwrites a record or moves one backwards. */
  lemma TransactionProgresses(
    p: Projection, tx: AcceptedTransaction, point: ChainPoint, network: NetworkBinding, builds: seq<ReviewedBuild>,
    selected: Option<set<Hex>>)
    requires Lifecycle(p) && FeedOk(p, tx) && ProjectTransaction(p, tx, point, network, builds, selected).Ok?
    ensures Progressed(p, ProjectTransaction(p, tx, point, network, builds, selected).value)
  {
    hide ProjectActions, Lifecycle, Progressed, AddOutputs, TrackedLive, UnsignedOutput;
    var seen := p.(transactions := p.transactions + {tx.id});
    var acted := ProjectActions(seen, tx, point, network, builds, selected).value;
    ActionsProgress(p, tx, point, network, builds, selected);
    ProjectActionsKeep(p, tx, point, network, builds, selected);
    var spent := acted.(utxos := acted.utxos - InputSet(tx));
    OutputsProgress(spent, |tx.outputs|, tx, p.transactions, point, network);
    var q := ProjectUtxos(acted, tx, point, network);
    UnchangedProgresses(acted, q);
    ProgressIsTransitive(p, acted, q);
  }

  lemma UnchangedProgresses(p: Projection, q: Projection)
    requires q.claims == p.claims && forall ref <- p.requests :: ref in q.requests && q.requests[ref] == p.requests[ref]
    ensures Progressed(p, q)
  {
  }

  lemma {:induction false} BlockProgresses(p: Projection, block: AcceptedBlock, k: nat, config: ReaderConfig)
    requires Lifecycle(p) && FeedBlock(p, block, config) && k <= |block.transactions|
    requires ProjectBlock(p, block, k, config).Ok?
    ensures Progressed(p, ProjectBlock(p, block, k, config).value)
  {
    hide Lifecycle, ProjectTransaction, FeedOk, ReadAccepted, Progressed;
    if k == 0 {
      SameRecordsProgress(p, p);
    } else {
      BlockProgresses(p, block, k - 1, config);
      BlockKeepsLifecycle(p, block, k - 1, config);
      var q := ProjectBlock(p, block, k - 1, config).value;
      var tx := ReadAccepted(block.transactions[k - 1]).value;
      TransactionProgresses(q, tx, block.point, config.network, config.builds, config.selected);
      ProgressIsTransitive(p, q, ProjectBlock(p, block, k, config).value);
    }
  }

  lemma FeedPrefix(blocks: seq<AcceptedBlock>, k: nat, config: ReaderConfig)
    requires k <= |blocks| && Feed(blocks, config)
    ensures Feed(blocks[..k], config)
  {
    hide Replay, FeedBlock;
    forall i | 0 <= i < k
      ensures Replay(blocks[..k][..i], config).Ok? && FeedBlock(Replay(blocks[..k][..i], config).value, blocks[..k][i], config)
    {
      assert blocks[..k][..i] == blocks[..i];
    }
  }

  /** Along an admissible feed, a longer history has every record of a shorter one, advanced or unchanged. */
  lemma {:induction false} HistoryOnlyAdvances(blocks: seq<AcceptedBlock>, k: nat, config: ReaderConfig)
    requires k <= |blocks| && Feed(blocks, config) && Replay(blocks, config).Ok?
    ensures Replay(blocks[..k], config).Ok?
    ensures Progressed(Replay(blocks[..k], config).value, Replay(blocks, config).value)
  {
    hide Lifecycle, ProjectBlock, FeedBlock, Progressed;
    PrefixReplays(blocks, k, config);
    if k == |blocks| {
      assert blocks[..k] == blocks;
      SameRecordsProgress(Replay(blocks, config).value, Replay(blocks, config).value);
    } else {
      var earlier, last := blocks[..|blocks| - 1], blocks[|blocks| - 1];
      FeedPrefix(blocks, |earlier|, config);
      HistoryOnlyAdvances(earlier, k, config);
      assert earlier[..k] == blocks[..k];
      ReplayIsLifecycle(earlier, config);
      var p := Replay(earlier, config).value;
      BlockProgresses(p, last, |last.transactions|, config);
      ProgressIsTransitive(Replay(blocks[..k], config).value, p, Replay(blocks, config).value);
    }
  }
}
