/** When a whole transaction is accepted: the vaults it leaves alone, the records it consumes, and what it must not announce. */
module Acceptance {
  import opened Results
  import opened Types
  import opened Values
  import opened References
  import opened Planning
  import opened AcceptedTransactions
  import opened Projections
  import opened Projecting
  import opened Lifecycles

  /** A transaction that neither moves a vault's State nor spends its Config. */
  predicate Spares(vault: VaultRecord, tx: AcceptedTransaction) {
    vault.deployment.configRef !in tx.inputs && vault.state.ref !in tx.inputs
  }

  lemma SparedVisit(p: Projection, policy: Hex, tx: AcceptedTransaction, point: ChainPoint, network: NetworkBinding)
    requires policy in p.vaults ==> Spares(p.vaults[policy], tx)
    ensures VisitVault(p, policy, tx, point, network) == Ok(p)
  {
    hide AdvanceState;
  }

  lemma VisitKeepsOthers(
    p: Projection, policy: Hex, tx: AcceptedTransaction, point: ChainPoint, network: NetworkBinding, other: Hex)
    requires other != policy && VisitVault(p, policy, tx, point, network).Ok?
    ensures
      var q := VisitVault(p, policy, tx, point, network).value;
      (other in q.vaults <==> other in p.vaults) && (other in p.vaults ==> q.vaults[other] == p.vaults[other])
  {
    hide RecordSettlements, SuccessorState, ActionOf;
  }

  /** When every other vault is spared, visiting them all is visiting the one. */
  lemma {:induction false} VisitsReduce(
    p: Projection, order: seq<Hex>, k: nat, policy: Hex, tx: AcceptedTransaction, point: ChainPoint, network: NetworkBinding)
    requires k <= |order| && Distinct(order)
    requires forall other <- p.vaults :: other == policy || Spares(p.vaults[other], tx)
    ensures VisitVaults(p, order, k, tx, point, network)
         == if policy in order[..k] then VisitVault(p, policy, tx, point, network) else Ok(p)
  {
    hide VisitVault, Spares;
    if k > 0 {
      VisitsReduce(p, order, k - 1, policy, tx, point, network);
      assert order[..k] == order[..k - 1] + [order[k - 1]];
      var other := order[k - 1];
      if other != policy {
        if policy !in order[..k - 1] {
          SparedVisit(p, other, tx, point, network);
        } else if VisitVault(p, policy, tx, point, network).Ok? {
          VisitKeepsOthers(p, policy, tx, point, network, other);
          SparedVisit(VisitVault(p, policy, tx, point, network).value, other, tx, point, network);
        }
      }
    }
  }

  /** An input that is pending escrow is directed to a refund output that exists. */
  predicate RefundDirected(tx: AcceptedTransaction, ref: OutRef) {
    var action := ActionOf(tx, ref);
    action.Ok? && action.value.RequestAction? && action.value.request.Refund? && FindOutput(tx.outputs, action.value.request.refundOutput).Some?
  }

  /** An input that is a Claim is directed to a receiver output that exists. */
  predicate DeliveryDirected(tx: AcceptedTransaction, ref: OutRef) {
    var action := ActionOf(tx, ref);
    && action.Ok? && action.value.ClaimAction?
    && var index := ReceiverIndex(action.value.claim.deliveries, ref);
       index.Some? && FindOutput(tx.outputs, index.value).Some?
  }

  predicate IsPending(p: Projection, ref: OutRef) {
    ref in p.requests && p.requests[ref].status.PendingEscrow?
  }

  /** Every tracked input of the transaction says where it goes. */
  ghost predicate Directed(p: Projection, tx: AcceptedTransaction) {
    && (forall i :: 0 <= i < |tx.inputs| && IsPending(p, tx.inputs[i]) ==> RefundDirected(tx, tx.inputs[i]))
    && (forall i :: 0 <= i < |tx.inputs| && tx.inputs[i] in p.claims ==>
          DeliveryDirected(tx, tx.inputs[i]) && p.claims[tx.inputs[i]].request in p.requests)
  }

  /** Consumption keeps every record under its key and its link, and makes nothing pending. */
  ghost predicate Consumed(p: Projection, q: Projection) {
    && q.requests.Keys == p.requests.Keys && q.claims.Keys == p.claims.Keys
    && (forall ref :: IsPending(q, ref) ==> IsPending(p, ref))
    && forall ref <- p.claims :: q.claims[ref].request == p.claims[ref].request
  }

  lemma RefundIsAccepted(p: Projection, ref: OutRef, tx: AcceptedTransaction, point: ChainPoint)
    requires IsPending(p, ref) ==> RefundDirected(tx, ref)
    ensures RefundConsumed(p, ref, tx, point).Ok? && Consumed(p, RefundConsumed(p, ref, tx, point).value)
  {
    hide ActionOf, FindOutput;
  }

  lemma DeliveryIsAccepted(p: Projection, ref: OutRef, tx: AcceptedTransaction, point: ChainPoint)
    requires ref in p.claims ==> DeliveryDirected(tx, ref) && p.claims[ref].request in p.requests
    ensures DeliverConsumed(p, ref, tx, point).Ok? && Consumed(p, DeliverConsumed(p, ref, tx, point).value)
  {
    hide ActionOf, FindOutput, ReceiverIndex;
  }

  lemma ConsumedIsTransitive(p: Projection, q: Projection, r: Projection)
    requires Consumed(p, q) && Consumed(q, r)
    ensures Consumed(p, r)
  {
    hide IsPending;
  }

  lemma {:induction false} ConsumptionSucceeds(p: Projection, k: nat, tx: AcceptedTransaction, point: ChainPoint)
    requires k <= |tx.inputs| && Directed(p, tx)
    ensures ConsumeInputs(p, k, tx, point).Ok? && Consumed(p, ConsumeInputs(p, k, tx, point).value)
  {
    hide RefundConsumed, DeliverConsumed, RefundDirected, DeliveryDirected, Consumed;
    if k == 0 {
      NothingConsumed(p);
    } else {
      ConsumptionSucceeds(p, k - 1, tx, point);
      var q, ref := ConsumeInputs(p, k - 1, tx, point).value, tx.inputs[k - 1];
      ConsumedStaysDirected(p, q, tx);
      RefundIsAccepted(q, ref, tx, point);
      var r := RefundConsumed(q, ref, tx, point).value;
      ConsumedStaysDirected(q, r, tx);
      DeliveryIsAccepted(r, ref, tx, point);
      ConsumedIsTransitive(p, q, r);
      ConsumedIsTransitive(p, r, DeliverConsumed(r, ref, tx, point).value);
    }
  }

  lemma NothingConsumed(p: Projection)
    ensures Consumed(p, p)
  {
  }

  lemma ConsumedStaysDirected(p: Projection, q: Projection, tx: AcceptedTransaction)
    requires Directed(p, tx) && Consumed(p, q)
    ensures Directed(q, tx)
  {
    hide RefundDirected, DeliveryDirected, IsPending;
  }

  lemma SettledWasPending(
    p: Projection, vault: VaultRecord, tx: AcceptedTransaction, entry: SettleEntry, point: ChainPoint, network: NetworkBinding, ref: OutRef)
    requires RecordSettlement(p, vault, tx, entry, point, network).Ok?
    ensures IsPending(p, RefId(entry.requestRef))
    ensures IsPending(RecordSettlement(p, vault, tx, entry, point, network).value, ref) ==> IsPending(p, ref)
  {
    hide ClaimValue, AssertSameValue, FindOutput, ProtectedOutput, RefId;
  }

  /** Every settlement of an accepted batch was of a Request pending before it. */
  lemma {:induction false} SettledWerePending(
    p: Projection, vault: VaultRecord, tx: AcceptedTransaction, entries: seq<SettleEntry>, k: nat, point: ChainPoint,
    network: NetworkBinding, ref: OutRef)
    requires k <= |entries| && RecordSettlements(p, vault, tx, entries, k, point, network).Ok?
    ensures IsPending(RecordSettlements(p, vault, tx, entries, k, point, network).value, ref) ==> IsPending(p, ref)
    ensures forall i :: 0 <= i < k ==> IsPending(p, RefId(entries[i].requestRef))
  {
    hide RecordSettlement, IsPending, RefId;
    if k > 0 {
      var q, last := RecordSettlements(p, vault, tx, entries, k - 1, point, network).value, entries[k - 1];
      SettledWasPending(q, vault, tx, last, point, network, ref);
      SettledWerePending(p, vault, tx, entries, k - 1, point, network, ref);
      SettledWerePending(p, vault, tx, entries, k - 1, point, network, RefId(last.requestRef));
    }
  }

  /** No output of the transaction announces a vault. */
  predicate AnnouncesNothing(tx: AcceptedTransaction) {
    forall i :: 0 <= i < |tx.outputs| ==> tx.outputs[i].content.datum.None? || !tx.outputs[i].content.datum.value.ConfigDatum?
  }

  lemma {:induction false} NothingDiscovered(
    tx: AcceptedTransaction, k: nat, builds: seq<ReviewedBuild>, point: ChainPoint, network: NetworkBinding)
    requires k <= |tx.outputs| && AnnouncesNothing(tx)
    ensures Discovered(tx, k, builds, point, network) == Ok([])
  {
    hide MatchBuild;
    if k > 0 {
      NothingDiscovered(tx, k - 1, builds, point, network);
    }
  }

  /**
   * A transaction about one vault is accepted exactly when its visit to that vault is, once the records it consumes are
   * directed, other vaults are spared, and no vault is announced.
   */
  lemma AcceptedByVisit(
    p: Projection, policy: Hex, tx: AcceptedTransaction, point: ChainPoint, network: NetworkBinding, builds: seq<ReviewedBuild>,
    selected: Option<set<Hex>>)
    requires OrderFits(p) && policy in p.vaults && tx.id !in p.transactions && tx.valid && AnnouncesNothing(tx)
    requires forall other <- p.vaults :: other == policy || Spares(p.vaults[other], tx)
    requires
      var seen := p.(transactions := p.transactions + {tx.id});
      var visited := VisitVault(seen, policy, tx, point, network);
      visited.Ok? ==> Directed(visited.value, tx)
    ensures ProjectTransaction(p, tx, point, network, builds, selected).Ok?
       <==> VisitVault(p.(transactions := p.transactions + {tx.id}), policy, tx, point, network).Ok?
  {
    hide VisitVault, VisitVaults, ConsumeInputs, Discovered, AddOutputs, Directed, Spares, Consumed, AnnouncesNothing;
    var seen := p.(transactions := p.transactions + {tx.id});
    assert p.order[..|p.order|] == p.order;
    VisitsReduce(seen, p.order, |p.order|, policy, tx, point, network);
    NothingDiscovered(tx, |tx.outputs|, builds, point, network);
    var visited := VisitVault(seen, policy, tx, point, network);
    if visited.Ok? {
      ConsumptionSucceeds(visited.value, |tx.inputs|, tx, point);
    }
  }
}
