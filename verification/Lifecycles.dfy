/** The cross-map invariant of every reachable projection, and what the accepted feed must guarantee for it. */
module Lifecycles {
  import opened Results
  import opened Types
  import opened Values
  import opened References
  import opened Planning
  import opened AcceptedTransactions
  import opened Projections
  import opened Projecting

  type Outputs = map<OutRef, LedgerOutput>

  /** Status fixes which of settlement and completion are present. */
  predicate StatusFits(r: RequestRecord) {
    match r.status
    case PendingEscrow => r.settlement.None? && r.completion.None?
    case Claimable => r.settlement.Some? && r.completion.None?
    case Delivered => r.settlement.Some? && r.completion.Some?
    case Refunded => r.settlement.None? && r.completion.Some?
  }

  /** The record is the reading of its own source output. */
  predicate RequestOfSource(r: RequestRecord) {
    && r.source.ref == r.ref
    && r.source.content.address.payment == Some(Credential(Script, r.policy))
    && r.source.content.datum.Some?
    && EnvelopeRecovery(r.source.content.datum.value) == Some(r.recovery)
    && r.recovery.vaultPolicy == r.policy
    && (r.request.Some? ==> r.source.content.datum == Some(RequestDatum(r.request.value)))
  }

  /** A request is pending exactly while its output is unspent, and a settled one is paired with its Claim. */
  predicate RequestLinked(p: Projection, k: OutRef, live: Outputs, consumed: set<OutRef>)
    requires k in p.requests
  {
    var r := p.requests[k];
    && r.ref == k && RequestOfSource(r) && StatusFits(r)
    && (r.status.PendingEscrow? <==> k in live && k !in consumed)
    && (r.status.PendingEscrow? ==> live[k] == r.source)
    && (r.settlement.Some? ==>
          var c := r.settlement.value.claimRef;
          c in p.claims && p.claims[c].request == k && (p.claims[c].delivered <==> r.status.Delivered?))
  }

  /** The record is the reading of a correctly funded Claim output. */
  predicate ClaimOfSource(c: ClaimRecord) {
    && c.source.ref == c.ref
    && c.source.content.datum == Some(ClaimDatum(c.claim))
    && c.request == RefId(c.claim.requestRef)
    && ClaimValue(c.claim).Ok?
    && AssertSameValue(c.source.content.value, ClaimValue(c.claim).value).Pass?
  }

  /** A Claim is undelivered exactly while its output is unspent, and its request points back at it. */
  predicate ClaimLinked(p: Projection, k: OutRef, live: Outputs, consumed: set<OutRef>)
    requires k in p.claims
  {
    var c := p.claims[k];
    && c.ref == k && ClaimOfSource(c)
    && (!c.delivered <==> k in live && k !in consumed)
    && (!c.delivered ==> live[k] == c.source)
    && c.request in p.requests
    && p.requests[c.request].settlement.Some? && p.requests[c.request].settlement.value.claimRef == k
  }

  /** A vault's current State is an unspent State output at its own script. */
  predicate VaultLinked(p: Projection, policy: Hex, live: Outputs)
    requires policy in p.vaults
  {
    var v := p.vaults[policy];
    && v.deployment.policy == policy
    && v.state.ref in live
    && v.state.datum.StateDatum? && v.state.datum.state.vaultPolicy == policy
    && live[v.state.ref].content.address.payment == Some(Credential(Script, policy))
    && live[v.state.ref].content.datum == Some(v.state.datum)
    && live[v.state.ref].content.value == v.state.value
  }

  ghost predicate OrderFits(p: Projection) {
    Distinct(p.order) && forall policy :: policy in p.order <==> policy in p.vaults
  }

  ghost predicate Linked(p: Projection, live: Outputs, consumed: set<OutRef>) {
    && (forall k <- p.requests :: RequestLinked(p, k, live, consumed))
    && (forall k <- p.claims :: ClaimLinked(p, k, live, consumed))
    && p.requests.Keys !! p.claims.Keys
    && (forall policy <- p.vaults :: VaultLinked(p, policy, live))
    && OrderFits(p)
  }

  predicate SeenIn(keys: set<OutRef>, transactions: set<Hex>) {
    forall k <- keys :: k.txId in transactions
  }

  /** Ledger quantities are unsigned. */
  predicate UnsignedOutput(o: LedgerOutput) {
    forall a <- o.content.value :: 0 <= o.content.value[a]
  }

  /** The lifecycle invariant: linked maps over the unspent outputs, keyed by already seen transactions. */
  ghost predicate Lifecycle(p: Projection) {
    && Linked(p, p.utxos, {})
    && SeenIn(p.requests.Keys, p.transactions)
    && SeenIn(p.claims.Keys, p.transactions)
    && SeenIn(p.utxos.Keys, p.transactions)
    && forall k <- p.utxos :: p.utxos[k].ref == k && UnsignedOutput(p.utxos[k])
  }

  /** The outputs that a tracked lifecycle still depends on. */
  predicate TrackedLive(p: Projection, ref: OutRef) {
    || (ref in p.requests && p.requests[ref].status.PendingEscrow?)
    || (ref in p.claims && !p.claims[ref].delivered)
    || (exists policy :: policy in p.vaults && p.vaults[policy].state.ref == ref)
  }

  /**
   * The feed assumption: inputs are distinct, are not the transaction's own outputs, and if created in retained
   * history are still unspent; quantities are unsigned; a failed transaction's collateral names no tracked script output.
   */
  predicate FeedOk(p: Projection, tx: AcceptedTransaction) {
    && (forall i :: 0 <= i < |tx.outputs| ==> tx.outputs[i].ref.txId == tx.id)
    && (forall i, j :: 0 <= i < j < |tx.outputs| ==> tx.outputs[i].ref != tx.outputs[j].ref)
    && (forall i :: 0 <= i < |tx.outputs| ==> UnsignedOutput(tx.outputs[i]))
    && Distinct(tx.inputs)
    && (forall i :: 0 <= i < |tx.inputs| ==>
          tx.inputs[i].txId != tx.id && (tx.inputs[i].txId in p.transactions ==> tx.inputs[i] in p.utxos))
    && (!tx.valid ==> forall i :: 0 <= i < |tx.inputs| ==> !TrackedLive(p, tx.inputs[i]))
  }

  /** The unspent outputs with a transaction's first k outputs added. */
  function WithOutputs(u: Outputs, tx: AcceptedTransaction, k: nat): Outputs
    requires k <= |tx.outputs|
  {
    if k == 0 then u else WithOutputs(u, tx, k - 1)[tx.outputs[k - 1].ref := tx.outputs[k - 1]]
  }

  lemma {:induction false} WithOutputsMeans(u: Outputs, tx: AcceptedTransaction, k: nat, p: Projection)
    requires k <= |tx.outputs| && FeedOk(p, tx)
    ensures forall i :: 0 <= i < k ==> tx.outputs[i].ref in WithOutputs(u, tx, k) && WithOutputs(u, tx, k)[tx.outputs[i].ref] == tx.outputs[i]
    ensures forall ref: OutRef :: ref.txId != tx.id ==>
      (ref in WithOutputs(u, tx, k) <==> ref in u) && (ref in u ==> WithOutputs(u, tx, k)[ref] == u[ref])
    ensures forall ref <- WithOutputs(u, tx, k) :: ref in u || exists i :: 0 <= i < k && tx.outputs[i].ref == ref
  {
    hide TrackedLive;
    if k > 0 {
      WithOutputsMeans(u, tx, k - 1, p);
    }
  }

  /** What is live while a transaction acts: everything unspent before it, and its own outputs. */
  function Live(p: Projection, tx: AcceptedTransaction): Outputs {
    WithOutputs(p.utxos, tx, |tx.outputs|)
  }

  /** Facts about a transaction's outputs and inputs relative to the live outputs, used step by step. */
  ghost predicate Acting(live: Outputs, tx: AcceptedTransaction, before: set<Hex>) {
    && (forall o <- tx.outputs :: o.ref in live && live[o.ref] == o && o.ref.txId == tx.id)
    && tx.id !in before
    && Distinct(tx.inputs)
    && (forall i :: 0 <= i < |tx.inputs| ==> tx.inputs[i].txId != tx.id && (tx.inputs[i].txId in before ==> tx.inputs[i] in live))
  }

  /** A projection in the middle of a transaction. */
  ghost predicate Midway(p: Projection, live: Outputs, consumed: set<OutRef>, tx: AcceptedTransaction, before: set<Hex>) {
    && Linked(p, live, consumed)
    && Acting(live, tx, before)
    && SeenIn(p.requests.Keys, before)
    && (forall k <- p.claims :: k.txId in before || k.txId == tx.id)
    && (forall ref <- consumed :: ref in tx.inputs)
  }

  /** Links depend only on the two record maps and on what is live and unconsumed at their keys. */
  lemma RecordsStay(
    p: Projection, q: Projection, live: Outputs, consumed: set<OutRef>, live': Outputs, consumed': set<OutRef>)
    requires q.requests == p.requests && q.claims == p.claims
    requires forall k <- p.requests :: RequestLinked(p, k, live, consumed)
    requires forall k <- p.claims :: ClaimLinked(p, k, live, consumed)
    requires forall k :: k in p.requests || k in p.claims ==>
      && (k in live && k !in consumed <==> k in live' && k !in consumed')
      && (k in live && k !in consumed ==> live[k] == live'[k])
    ensures forall k <- q.requests :: RequestLinked(q, k, live', consumed')
    ensures forall k <- q.claims :: ClaimLinked(q, k, live', consumed')
  {
    hide StatusFits, RequestOfSource, ClaimOfSource;
    forall k <- q.requests ensures RequestLinked(q, k, live', consumed') {
      assert RequestLinked(p, k, live, consumed);
    }
    forall k <- q.claims ensures ClaimLinked(q, k, live', consumed') {
      assert ClaimLinked(p, k, live, consumed);
    }
  }

  /** A vault's link depends only on its record and on what is live at its State. */
  lemma VaultsStay(p: Projection, q: Projection, live: Outputs, live': Outputs)
    requires p.vaults == q.vaults && p.order == q.order
    requires forall policy <- p.vaults :: VaultLinked(p, policy, live)
    requires forall policy <- p.vaults ::
      var ref := p.vaults[policy].state.ref; ref in live ==> ref in live' && live'[ref] == live[ref]
    requires OrderFits(p)
    ensures forall policy <- q.vaults :: VaultLinked(q, policy, live')
    ensures OrderFits(q)
  {
    forall policy <- q.vaults ensures VaultLinked(q, policy, live') {
      assert VaultLinked(p, policy, live);
    }
  }

  lemma BeginTransaction(p: Projection, tx: AcceptedTransaction)
    requires Lifecycle(p) && FeedOk(p, tx) && tx.id !in p.transactions
    ensures Midway(p.(transactions := p.transactions + {tx.id}), Live(p, tx), {}, tx, p.transactions)
  {
    hide RequestLinked, ClaimLinked, TrackedLive;
    WithOutputsMeans(p.utxos, tx, |tx.outputs|, p);
    var q := p.(transactions := p.transactions + {tx.id});
    var live := Live(p, tx);
    RecordsStay(p, q, p.utxos, {}, live, {});
    StatesAreSeen(p);
    VaultsStay(p, q, p.utxos, live);
    forall o <- tx.outputs ensures o.ref in live && live[o.ref] == o && o.ref.txId == tx.id {
      var i :| 0 <= i < |tx.outputs| && tx.outputs[i] == o;
    }
  }

  lemma StatesAreSeen(p: Projection)
    requires Lifecycle(p)
    ensures forall policy <- p.vaults ::
      p.vaults[policy].state.ref in p.utxos && p.vaults[policy].state.ref.txId in p.transactions
  {
    hide RequestLinked, ClaimLinked, OrderFits;
    forall policy <- p.vaults
      ensures p.vaults[policy].state.ref in p.utxos && p.vaults[policy].state.ref.txId in p.transactions
    {
      assert VaultLinked(p, policy, p.utxos);
    }
  }

  /** A record keeps the reading of its source when only its progress changes. */
  lemma ProgressKeepsSource(r: RequestRecord, progressed: RequestRecord)
    requires RequestOfSource(r)
    requires progressed == r.(status := progressed.status, settlement := progressed.settlement, completion := progressed.completion)
    ensures RequestOfSource(progressed)
  {
  }

  /** Installing a settlement pairs a request with a new Claim and consumes the request's output. */
  lemma RecordSettlementKeeps(
    p: Projection, live: Outputs, consumed: set<OutRef>, before: set<Hex>, vault: VaultRecord, tx: AcceptedTransaction,
    entry: SettleEntry, point: ChainPoint, network: NetworkBinding)
    requires Midway(p, live, consumed, tx, before)
    requires RecordSettlement(p, vault, tx, entry, point, network).Ok?
    ensures
      var q := RecordSettlement(p, vault, tx, entry, point, network).value;
      && Midway(q, live, consumed + {RefId(entry.requestRef)}, tx, before)
      && RefId(entry.requestRef) in p.requests && q.requests.Keys == p.requests.Keys
  {
    hide RequestOfSource, OrderFits, ClaimOfSource, VaultLinked, RecordSettlement, RefId;
    var q := RecordSettlement(p, vault, tx, entry, point, network).value;
    forall k <- p.requests ensures p.requests[k].ref == k {
      assert RequestLinked(p, k, live, consumed);
    }
    var key, source := RecordSettlementParts(p, vault, tx, entry, point, network);
    assert RequestLinked(p, key, live, consumed);
    assert source.ref !in p.claims by {
      if source.ref in p.claims {
        assert ClaimLinked(p, source.ref, live, consumed);
        SameClaimSameRequest(p.claims[source.ref], q.claims[source.ref]);
      }
    }
    var after := consumed + {key};
    forall k <- q.requests ensures RequestLinked(q, k, live, after) {
      assert RequestLinked(p, k, live, consumed);
      ProgressKeepsSource(p.requests[k], q.requests[k]);
    }
    forall k <- q.claims ensures ClaimLinked(q, k, live, after) {
      if k != source.ref {
        assert ClaimLinked(p, k, live, consumed);
      }
    }
    VaultsStay(p, q, live, live);
  }

  lemma SameClaimSameRequest(c: ClaimRecord, d: ClaimRecord)
    requires ClaimOfSource(c) && ClaimOfSource(d) && c.source == d.source
    ensures c.request == d.request
  {
    hide ClaimValue, AssertSameValue;
  }

  /** What installing a settlement changes, and what it has checked. */
  lemma RecordSettlementParts(
    p: Projection, vault: VaultRecord, tx: AcceptedTransaction, entry: SettleEntry, point: ChainPoint, network: NetworkBinding)
    returns (key: OutRef, source: LedgerOutput)
    requires RecordSettlement(p, vault, tx, entry, point, network).Ok?
    requires forall k <- p.requests :: p.requests[k].ref == k
    ensures key == RefId(entry.requestRef) && key in p.requests && p.requests[key].status.PendingEscrow? && key in tx.inputs
    ensures source in tx.outputs
    ensures
      var q := RecordSettlement(p, vault, tx, entry, point, network).value;
      && q == p.(requests := q.requests, claims := q.claims)
      && q.requests == p.requests[key := p.requests[key].(
           status := Claimable, settlement := Some(SettlementRecord(tx.id, vault.state.ref, source.ref, point)))]
      && source.ref in q.claims
      && q.claims == p.claims[source.ref := q.claims[source.ref]]
      && (var c := q.claims[source.ref];
          c.ref == source.ref && c.source == source && c.request == key && !c.delivered && ClaimOfSource(c))
  {
    hide ClaimValue, AssertSameValue;
    key := RefId(entry.requestRef);
    source := FindOutput(tx.outputs, entry.claimOutput).value;
  }

  lemma {:induction false} RecordSettlementsKeep(
    p: Projection, live: Outputs, consumed: set<OutRef>, before: set<Hex>, vault: VaultRecord, tx: AcceptedTransaction,
    entries: seq<SettleEntry>, k: nat, point: ChainPoint, network: NetworkBinding) returns (after: set<OutRef>)
    requires k <= |entries| && Midway(p, live, consumed, tx, before)
    requires RecordSettlements(p, vault, tx, entries, k, point, network).Ok?
    ensures Midway(RecordSettlements(p, vault, tx, entries, k, point, network).value, live, after, tx, before)
    ensures consumed <= after && after <= consumed + p.requests.Keys
    ensures RecordSettlements(p, vault, tx, entries, k, point, network).value.requests.Keys == p.requests.Keys
  {
    hide Midway, RefId, RecordSettlement;
    if k == 0 {
      after := consumed;
    } else {
      after := RecordSettlementsKeep(p, live, consumed, before, vault, tx, entries, k - 1, point, network);
      var q := RecordSettlements(p, vault, tx, entries, k - 1, point, network).value;
      RecordSettlementKeeps(q, live, after, before, vault, tx, entries[k - 1], point, network);
      after := after + {RefId(entries[k - 1].requestRef)};
    }
  }

  /** A vault whose State is consumed moves to an output of this transaction. */
  lemma AdvanceStateKeeps(
    p: Projection, live: Outputs, consumed: set<OutRef>, before: set<Hex>, policy: Hex, tx: AcceptedTransaction,
    point: ChainPoint, network: NetworkBinding) returns (after: set<OutRef>)
    requires Midway(p, live, consumed, tx, before) && policy in p.vaults
    requires AdvanceState(p, policy, tx, point, network).Ok?
    ensures
      var q := AdvanceState(p, policy, tx, point, network).value;
      && Midway(q, live, after, tx, before) && after <= consumed + p.requests.Keys
      && q.requests.Keys == p.requests.Keys
      && q.vaults.Keys == p.vaults.Keys && q.vaults[policy].state.ref.txId == tx.id
      && q.order == p.order && (forall other <- p.vaults :: other != policy ==> q.vaults[other] == p.vaults[other])
  {
    hide RecordSettlements, SuccessorState, RequestLinked, ClaimLinked, Linked, Acting, VaultLinked, OrderFits, FindOutput;
    var vault := p.vaults[policy];
    var action := ActionOf(tx, vault.state.ref).value.state;
    var settled := p;
    after := consumed;
    if action.Batch? {
      after := RecordSettlementsKeep(p, live, consumed, before, vault, tx, action.entries, |action.entries|, point, network);
      settled := RecordSettlements(p, vault, tx, action.entries, |action.entries|, point, network).value;
      SettlementsKeepVaults(p, vault, tx, action.entries, |action.entries|, point, network);
    }
    var q := AdvanceState(p, policy, tx, point, network).value;
    SuccessorIsLive(p, live, consumed, before, policy, tx, action, network);
    ReplaceVaultKeeps(settled, q, live, after, policy, SuccessorState(vault, tx, action, network).value);
  }

  lemma SuccessorIsLive(
    p: Projection, live: Outputs, consumed: set<OutRef>, before: set<Hex>, policy: Hex, tx: AcceptedTransaction,
    action: StateRedeemer, network: NetworkBinding)
    requires Midway(p, live, consumed, tx, before) && policy in p.vaults
    requires SuccessorState(p.vaults[policy], tx, action, network).Ok?
    ensures
      var state := SuccessorState(p.vaults[policy], tx, action, network).value;
      && p.vaults[policy].deployment.policy == policy
      && state.ref in live && state.ref.txId == tx.id && state.datum.StateDatum? && state.datum.state.vaultPolicy == policy
      && live[state.ref].content.address.payment == Some(Credential(Script, policy))
      && live[state.ref].content.datum == Some(state.datum) && live[state.ref].content.value == state.value
  {
    hide AssertSameValue, StateValue, RequestLinked, ClaimLinked, OrderFits;
    assert VaultLinked(p, policy, live);
  }

  lemma SuccessorLinks(q: Projection, live: Outputs, policy: Hex)
    requires policy in q.vaults && q.vaults[policy].deployment.policy == policy
    requires var state := q.vaults[policy].state;
      && state.ref in live && state.datum.StateDatum? && state.datum.state.vaultPolicy == policy
      && live[state.ref].content.address.payment == Some(Credential(Script, policy))
      && live[state.ref].content.datum == Some(state.datum) && live[state.ref].content.value == state.value
    ensures VaultLinked(q, policy, live)
  {
  }

  /** Replacing one vault's State by a live one at the same script touches no request and no Claim. */
  lemma ReplaceVaultKeeps(
    p: Projection, q: Projection, live: Outputs, consumed: set<OutRef>, policy: Hex, state: ProtectedInput)
    requires Linked(p, live, consumed) && policy in p.vaults
    requires q.requests == p.requests && q.claims == p.claims && q.order == p.order
    requires q.vaults.Keys == p.vaults.Keys && q.vaults[policy].state == state
    requires q.vaults[policy].deployment.policy == policy
    requires forall other <- p.vaults :: other != policy ==> q.vaults[other] == p.vaults[other]
    requires state.ref in live && state.datum.StateDatum? && state.datum.state.vaultPolicy == policy
    requires live[state.ref].content.address.payment == Some(Credential(Script, policy))
    requires live[state.ref].content.datum == Some(state.datum) && live[state.ref].content.value == state.value
    ensures Linked(q, live, consumed)
  {
    hide RequestLinked, ClaimLinked, Distinct, VaultLinked;
    RecordsStay(p, q, live, consumed, live, consumed);
    forall other <- q.vaults ensures VaultLinked(q, other, live) {
      if other == policy {
        SuccessorLinks(q, live, policy);
      } else {
        VaultLinkIsLocal(p, q, live, other);
      }
    }
  }

  lemma OrderedAreVaults(p: Projection, live: Outputs, consumed: set<OutRef>, tx: AcceptedTransaction, before: set<Hex>)
    requires Midway(p, live, consumed, tx, before)
    ensures forall i :: 0 <= i < |p.order| ==> p.order[i] in p.vaults
    ensures forall ref <- tx.inputs :: ref.txId != tx.id
  {
    hide RequestLinked, ClaimLinked, VaultLinked;
  }

  /** After visiting, no visited vault's State is an input any more. */
  lemma {:induction false} VisitVaultsKeep(
    p: Projection, live: Outputs, before: set<Hex>, k: nat, tx: AcceptedTransaction, point: ChainPoint, network: NetworkBinding)
    returns (after: set<OutRef>)
    requires Midway(p, live, {}, tx, before) && k <= |p.order|
    requires VisitVaults(p, p.order, k, tx, point, network).Ok?
    ensures
      var q := VisitVaults(p, p.order, k, tx, point, network).value;
      && Midway(q, live, after, tx, before) && after <= p.requests.Keys
      && q.order == p.order && q.vaults.Keys == p.vaults.Keys && q.requests.Keys == p.requests.Keys
      && forall i :: 0 <= i < k ==> p.order[i] in q.vaults && q.vaults[p.order[i]].state.ref !in tx.inputs
  {
    hide AdvanceState, Midway;
    if k == 0 {
      after := {};
    } else {
      after := VisitVaultsKeep(p, live, before, k - 1, tx, point, network);
      var q := VisitVaults(p, p.order, k - 1, tx, point, network).value;
      var policy := p.order[k - 1];
      OrderedAreVaults(p, live, {}, tx, before);
      if q.vaults[policy].state.ref in tx.inputs {
        after := AdvanceStateKeeps(q, live, after, before, policy, tx, point, network);
      }
    }
  }

  /** A consumed pending request is refunded. */
  lemma RefundConsumedKeeps(
    p: Projection, live: Outputs, consumed: set<OutRef>, before: set<Hex>, ref: OutRef, tx: AcceptedTransaction, point: ChainPoint)
    requires Midway(p, live, consumed, tx, before) && ref in tx.inputs && ref !in p.claims
    requires RefundConsumed(p, ref, tx, point).Ok?
    ensures Midway(RefundConsumed(p, ref, tx, point).value, live, consumed + {ref}, tx, before)
  {
    hide RequestOfSource, ClaimOfSource, VaultLinked, OrderFits;
    var q := RefundConsumed(p, ref, tx, point).value;
    var after := consumed + {ref};
    forall k <- q.requests ensures RequestLinked(q, k, live, after) {
      assert RequestLinked(p, k, live, consumed);
      ProgressKeepsSource(p.requests[k], q.requests[k]);
    }
    forall k <- q.claims ensures ClaimLinked(q, k, live, after) {
      assert ClaimLinked(p, k, live, consumed);
    }
    VaultsStay(p, q, live, live);
  }

  /** A spent Claim was undelivered until now, and its request completes with it. */
  lemma DeliverConsumedKeeps(
    p: Projection, live: Outputs, consumed: set<OutRef>, before: set<Hex>, ref: OutRef, tx: AcceptedTransaction, point: ChainPoint)
    requires Midway(p, live, consumed, tx, before) && ref in tx.inputs && ref in p.claims && ref !in consumed
    requires DeliverConsumed(p, ref, tx, point).Ok?
    ensures Midway(DeliverConsumed(p, ref, tx, point).value, live, consumed + {ref}, tx, before)
  {
    hide RequestLinked, ClaimLinked, VaultLinked, OrderFits, DeliverConsumed;
    var q := DeliverConsumed(p, ref, tx, point).value;
    var i :| 0 <= i < |tx.inputs| && tx.inputs[i] == ref;
    ClaimIsPaired(p, ref, live, consumed);
    var completion := DeliverConsumedParts(p, ref, tx, point);
    CompletePair(p, ref, completion, live, consumed);
    VaultsStay(p, q, live, live);
  }

  lemma ClaimIsPaired(p: Projection, ref: OutRef, live: Outputs, consumed: set<OutRef>)
    requires ref in p.claims && ClaimLinked(p, ref, live, consumed)
    ensures p.claims[ref].request in p.requests
  {
    hide ClaimOfSource;
  }

  function Completed(p: Projection, ref: OutRef, completion: CompletionRecord): Projection
    requires ref in p.claims && p.claims[ref].request in p.requests
  {
    var origin := p.claims[ref].request;
    p.(
      requests := p.requests[origin := p.requests[origin].(status := Delivered, completion := Some(completion))],
      claims := p.claims[ref := p.claims[ref].(delivered := true)])
  }

  /** Completing a request together with its live Claim keeps every pair of records linked. */
  lemma CompletePair(p: Projection, ref: OutRef, completion: CompletionRecord, live: Outputs, consumed: set<OutRef>)
    requires forall k <- p.requests :: RequestLinked(p, k, live, consumed)
    requires forall k <- p.claims :: ClaimLinked(p, k, live, consumed)
    requires ref in p.claims && p.claims[ref].request in p.requests && ref in live && ref !in consumed
    requires ref !in p.requests
    ensures
      var q := Completed(p, ref, completion);
      && (forall k <- q.requests :: RequestLinked(q, k, live, consumed + {ref}))
      && (forall k <- q.claims :: ClaimLinked(q, k, live, consumed + {ref}))
  {
    hide RequestOfSource, ClaimOfSource;
    var q, origin, after := Completed(p, ref, completion), p.claims[ref].request, consumed + {ref};
    assert ClaimLinked(p, ref, live, consumed);
    forall k <- q.requests ensures RequestLinked(q, k, live, after) {
      assert RequestLinked(p, k, live, consumed);
      ProgressKeepsSource(p.requests[k], q.requests[k]);
    }
    forall k <- q.claims ensures ClaimLinked(q, k, live, after) {
      assert ClaimLinked(p, k, live, consumed);
      DeliveryKeepsSource(p.claims[k]);
    }
  }

  lemma DeliverConsumedParts(p: Projection, ref: OutRef, tx: AcceptedTransaction, point: ChainPoint)
    returns (completion: CompletionRecord)
    requires ref in p.claims && p.claims[ref].request in p.requests && DeliverConsumed(p, ref, tx, point).Ok?
    ensures DeliverConsumed(p, ref, tx, point).value == Completed(p, ref, completion)
  {
    completion := DeliverConsumed(p, ref, tx, point).value.requests[p.claims[ref].request].completion.value;
  }

  lemma DeliveryKeepsSource(c: ClaimRecord)
    requires ClaimOfSource(c)
    ensures ClaimOfSource(c.(delivered := true))
  {
  }

  lemma ConsumeKeeps(
    p: Projection, live: Outputs, consumed: set<OutRef>, before: set<Hex>, ref: OutRef, tx: AcceptedTransaction, point: ChainPoint)
    requires Midway(p, live, consumed, tx, before) && ref in tx.inputs && (ref in p.claims ==> ref !in consumed)
    requires Consume(p, ref, tx, point).Ok?
    ensures
      var q := Consume(p, ref, tx, point).value;
      && Midway(q, live, consumed + {ref}, tx, before)
      && q.claims.Keys == p.claims.Keys && q.requests.Keys == p.requests.Keys
      && q.vaults == p.vaults && q.order == p.order
  {
    hide Midway, ActionOf, FindOutput;
    if ref in p.claims {
      assert ref !in p.requests by {
        MidwayDisjoint(p, live, consumed, tx, before);
      }
      DeliverConsumedKeeps(p, live, consumed, before, ref, tx, point);
    } else {
      RefundConsumedKeeps(p, live, consumed, before, ref, tx, point);
    }
  }

  lemma MidwayDisjoint(p: Projection, live: Outputs, consumed: set<OutRef>, tx: AcceptedTransaction, before: set<Hex>)
    requires Midway(p, live, consumed, tx, before)
    ensures p.requests.Keys !! p.claims.Keys
  {
  }

  lemma {:induction false} ConsumeInputsKeep(
    p: Projection, live: Outputs, consumed: set<OutRef>, before: set<Hex>, k: nat, tx: AcceptedTransaction, point: ChainPoint)
    requires Midway(p, live, consumed, tx, before) && k <= |tx.inputs| && consumed <= p.requests.Keys
    requires ConsumeInputs(p, k, tx, point).Ok?
    ensures
      var q := ConsumeInputs(p, k, tx, point).value;
      && Midway(q, live, consumed + set i | 0 <= i < k :: tx.inputs[i], tx, before)
      && q.claims.Keys == p.claims.Keys && q.requests.Keys == p.requests.Keys
      && q.vaults == p.vaults && q.order == p.order
  {
    hide Consume, Linked, Acting;
    var spent := set i | 0 <= i < k :: tx.inputs[i];
    if k == 0 {
      assert consumed + spent == consumed;
    } else {
      ConsumeInputsKeep(p, live, consumed, before, k - 1, tx, point);
      var q := ConsumeInputs(p, k - 1, tx, point).value;
      var earlier := consumed + set i | 0 <= i < k - 1 :: tx.inputs[i];
      var ref := tx.inputs[k - 1];
      assert ref in q.claims ==> ref !in earlier by {
        MidwayDisjoint(p, live, consumed, tx, before);
        InputsAreDistinct(live, tx, before, k - 1);
      }
      ConsumeKeeps(q, live, earlier, before, ref, tx, point);
      assert earlier + {ref} == consumed + spent;
    }
  }

  lemma InputsAreDistinct(live: Outputs, tx: AcceptedTransaction, before: set<Hex>, k: nat)
    requires Acting(live, tx, before) && k < |tx.inputs|
    ensures forall i :: 0 <= i < k ==> tx.inputs[i] != tx.inputs[k]
  {
  }

  lemma NewVaultIsLive(
    q: Projection, live: Outputs, vault: VaultRecord, tx: AcceptedTransaction, before: set<Hex>, network: NetworkBinding)
    requires Acting(live, tx, before) && AuthenticVault(vault, tx, network)
    requires vault.deployment.policy in q.vaults && q.vaults[vault.deployment.policy] == vault
    ensures VaultLinked(q, vault.deployment.policy, live) && vault.state.ref !in tx.inputs
  {
    var source :| source in tx.outputs && IsProtected(source, vault.deployment.policy, network.networkId)
      && vault.state.ref == source.ref && source.content.datum == Some(vault.state.datum)
      && vault.state.value == source.content.value;
  }

  lemma VaultLinkIsLocal(p: Projection, q: Projection, live: Outputs, policy: Hex)
    requires policy in p.vaults && policy in q.vaults && p.vaults[policy] == q.vaults[policy] && VaultLinked(p, policy, live)
    ensures VaultLinked(q, policy, live)
  {
  }

  /** A discovered vault's State is one of this transaction's own outputs. */
  lemma AddVaultKeeps(
    p: Projection, live: Outputs, consumed: set<OutRef>, before: set<Hex>, vault: VaultRecord, selected: Option<set<Hex>>,
    tx: AcceptedTransaction, network: NetworkBinding)
    requires Midway(p, live, consumed, tx, before) && AuthenticVault(vault, tx, network)
    requires AddVault(p, vault, selected).Ok?
    requires forall policy <- p.vaults :: p.vaults[policy].state.ref !in tx.inputs
    ensures
      var q := AddVault(p, vault, selected).value;
      && Midway(q, live, consumed, tx, before)
      && forall policy <- q.vaults :: q.vaults[policy].state.ref !in tx.inputs
  {
    hide RequestLinked, ClaimLinked, OrderFits, VaultLinked, Acting, AuthenticVault;
    var q := AddVault(p, vault, selected).value;
    if q != p {
      RecordsStay(p, q, live, consumed, live, consumed);
      NewVaultIsLive(q, live, vault, tx, before, network);
      forall policy <- q.vaults ensures VaultLinked(q, policy, live) {
        if policy in p.vaults {
          VaultLinkIsLocal(p, q, live, policy);
        }
      }
      AppendKeepsOrder(p, vault);
    }
  }

  lemma AppendKeepsOrder(p: Projection, vault: VaultRecord)
    requires OrderFits(p) && vault.deployment.policy !in p.vaults
    ensures OrderFits(p.(vaults := p.vaults[vault.deployment.policy := vault], order := p.order + [vault.deployment.policy]))
  {
    var policy := vault.deployment.policy;
    assert policy !in p.order;
    var order := p.order + [policy];
    forall i, j | 0 <= i < j < |order| ensures order[i] != order[j] {
      if j == |p.order| {
        assert order[i] in p.order;
      }
    }
  }

  lemma {:induction false} AddVaultsKeep(
    p: Projection, live: Outputs, consumed: set<OutRef>, before: set<Hex>, vaults: seq<VaultRecord>, k: nat,
    selected: Option<set<Hex>>, tx: AcceptedTransaction, network: NetworkBinding)
    requires Midway(p, live, consumed, tx, before) && k <= |vaults|
    requires forall vault <- vaults :: AuthenticVault(vault, tx, network)
    requires AddVaults(p, vaults, k, selected).Ok?
    requires forall policy <- p.vaults :: p.vaults[policy].state.ref !in tx.inputs
    ensures
      var q := AddVaults(p, vaults, k, selected).value;
      && Midway(q, live, consumed, tx, before)
      && q.requests == p.requests && q.claims == p.claims && q.utxos == p.utxos && q.transactions == p.transactions
      && forall policy <- q.vaults :: q.vaults[policy].state.ref !in tx.inputs
  {
    hide Midway, AuthenticVault;
    if k > 0 {
      AddVaultsKeep(p, live, consumed, before, vaults, k - 1, selected, tx, network);
      AddVaultKeeps(AddVaults(p, vaults, k - 1, selected).value, live, consumed, before, vaults[k - 1], selected, tx, network);
    }
  }

  /** After the actions, everything tracked at an input has moved on. */
  lemma ActionsKeep(
    p: Projection, tx: AcceptedTransaction, point: ChainPoint, network: NetworkBinding, builds: seq<ReviewedBuild>,
    selected: Option<set<Hex>>)
    requires Lifecycle(p) && FeedOk(p, tx) && tx.id !in p.transactions
    requires tx.valid && ProjectActions(p.(transactions := p.transactions + {tx.id}), tx, point, network, builds, selected).Ok?
    ensures
      var q := ProjectActions(p.(transactions := p.transactions + {tx.id}), tx, point, network, builds, selected).value;
      && Midway(q, Live(p, tx), InputSet(tx), tx, p.transactions)
      && forall policy <- q.vaults :: q.vaults[policy].state.ref !in tx.inputs
  {
    hide VisitVaults, ConsumeInputs, AddVaults, Linked, Acting, TrackedLive, Live, AuthenticVault;
    BeginTransaction(p, tx);
    var seen := p.(transactions := p.transactions + {tx.id});
    var live, before := Live(p, tx), p.transactions;
    var settled := VisitVaultsKeep(seen, live, before, |seen.order|, tx, point, network);
    var advanced := VisitVaults(seen, seen.order, |seen.order|, tx, point, network).value;
    forall policy <- advanced.vaults ensures advanced.vaults[policy].state.ref !in tx.inputs {
      VaultIsOrdered(seen, live, {}, policy);
    }
    ConsumeInputsKeep(advanced, live, settled, before, |tx.inputs|, tx, point);
    assert settled + (set i | 0 <= i < |tx.inputs| :: tx.inputs[i]) == InputSet(tx);
    var consumed := ConsumeInputs(advanced, |tx.inputs|, tx, point).value;
    DiscoveredAreAuthentic(tx, |tx.outputs|, builds, point, network);
    var discovered := DiscoverGenesis(tx, builds, point, network).value;
    AddVaultsKeep(consumed, live, InputSet(tx), before, discovered, |discovered|, selected, tx, network);
  }

  lemma VaultIsOrdered(p: Projection, live: Outputs, consumed: set<OutRef>, policy: Hex)
    requires Linked(p, live, consumed) && policy in p.vaults
    ensures exists i :: 0 <= i < |p.order| && p.order[i] == policy
  {
  }

  lemma VisitKeepsUtxos(p: Projection, policy: Hex, tx: AcceptedTransaction, point: ChainPoint, network: NetworkBinding)
    requires VisitVault(p, policy, tx, point, network).Ok?
    ensures
      var q := VisitVault(p, policy, tx, point, network).value;
      q.utxos == p.utxos && q.transactions == p.transactions
  {
    hide SuccessorState, RecordSettlement;
    if policy in p.vaults && p.vaults[policy].state.ref in tx.inputs {
      var vault := p.vaults[policy];
      var action := ActionOf(tx, vault.state.ref).value.state;
      if action.Batch? {
        SettlementsKeepVaults(p, vault, tx, action.entries, |action.entries|, point, network);
      }
    }
  }

  lemma {:induction false} VisitsKeepUtxos(
    p: Projection, order: seq<Hex>, k: nat, tx: AcceptedTransaction, point: ChainPoint, network: NetworkBinding)
    requires k <= |order| && VisitVaults(p, order, k, tx, point, network).Ok?
    ensures
      var q := VisitVaults(p, order, k, tx, point, network).value;
      q.utxos == p.utxos && q.transactions == p.transactions
  {
    hide VisitVault;
    if k > 0 {
      VisitsKeepUtxos(p, order, k - 1, tx, point, network);
      VisitKeepsUtxos(VisitVaults(p, order, k - 1, tx, point, network).value, order[k - 1], tx, point, network);
    }
  }

  lemma {:induction false} ConsumptionKeepsUtxos(p: Projection, k: nat, tx: AcceptedTransaction, point: ChainPoint)
    requires k <= |tx.inputs| && ConsumeInputs(p, k, tx, point).Ok?
    ensures
      var q := ConsumeInputs(p, k, tx, point).value;
      q.utxos == p.utxos && q.transactions == p.transactions
  {
    hide ActionOf, FindOutput;
    if k > 0 {
      ConsumptionKeepsUtxos(p, k - 1, tx, point);
    }
  }

  lemma {:induction false} AdditionKeepsUtxos(p: Projection, vaults: seq<VaultRecord>, k: nat, selected: Option<set<Hex>>)
    requires k <= |vaults| && AddVaults(p, vaults, k, selected).Ok?
    ensures
      var q := AddVaults(p, vaults, k, selected).value;
      q.utxos == p.utxos && q.transactions == p.transactions
  {
    if k > 0 {
      AdditionKeepsUtxos(p, vaults, k - 1, selected);
    }
  }

  /** Actions leave the unspent outputs to the last step. */
  lemma ActionsKeepUtxos(
    p: Projection, tx: AcceptedTransaction, point: ChainPoint, network: NetworkBinding, builds: seq<ReviewedBuild>,
    selected: Option<set<Hex>>)
    requires ProjectActions(p, tx, point, network, builds, selected).Ok?
    ensures
      var q := ProjectActions(p, tx, point, network, builds, selected).value;
      q.utxos == p.utxos && q.transactions == p.transactions
  {
    hide VisitVaults, ConsumeInputs, AddVaults, DiscoverGenesis;
    if tx.valid {
      VisitsKeepUtxos(p, p.order, |p.order|, tx, point, network);
      var advanced := VisitVaults(p, p.order, |p.order|, tx, point, network).value;
      ConsumptionKeepsUtxos(advanced, |tx.inputs|, tx, point);
      var consumed := ConsumeInputs(advanced, |tx.inputs|, tx, point).value;
      var discovered := DiscoverGenesis(tx, builds, point, network).value;
      AdditionKeepsUtxos(consumed, discovered, |discovered|, selected);
    }
  }

  /** A failed transaction's collateral touches nothing tracked, so its links survive the spend. */
  lemma CollateralKeeps(p: Projection, tx: AcceptedTransaction)
    requires Lifecycle(p) && FeedOk(p, tx) && tx.id !in p.transactions && !tx.valid
    ensures Linked(p.(transactions := p.transactions + {tx.id}), Live(p, tx) - InputSet(tx), {})
  {
    hide StatusFits, RequestOfSource, ClaimOfSource, OrderFits, VaultLinked;
    BeginTransaction(p, tx);
    var q := p.(transactions := p.transactions + {tx.id});
    var live := Live(p, tx);
    forall k | k in q.requests || k in q.claims
      ensures k in live <==> k in live - InputSet(tx)
    {
      if k in q.requests {
        assert RequestLinked(q, k, live, {});
      } else {
        assert ClaimLinked(q, k, live, {});
      }
    }
    RecordsStay(q, q, live, {}, live - InputSet(tx), {});
    VaultsStay(q, q, live, live - InputSet(tx));
  }

  lemma SpendKeeps(p: Projection, live: Outputs, tx: AcceptedTransaction, before: set<Hex>)
    requires Midway(p, live, InputSet(tx), tx, before)
    requires forall policy <- p.vaults :: p.vaults[policy].state.ref !in tx.inputs
    ensures Linked(p, live - InputSet(tx), {})
  {
    hide RequestLinked, ClaimLinked, OrderFits, VaultLinked;
    RecordsStay(p, p, live, InputSet(tx), live - InputSet(tx), {});
    VaultsStay(p, p, live, live - InputSet(tx));
  }

  /** A recognized output is the reading of its source. */
  lemma RecognizedIsOfSource(p: Projection, source: LedgerOutput, point: ChainPoint, network: NetworkBinding)
    requires Recognize(p, source, point, network).Some?
    ensures
      var r := Recognize(p, source, point, network).value;
      && r.ref == source.ref && r.source == source && r.status.PendingEscrow? && StatusFits(r) && RequestOfSource(r)
  {
    hide OwnAsset;
  }

  /** A pending request for a live output can join the records. */
  lemma AddRequestKeeps(p: Projection, final: Outputs, r: RequestRecord)
    requires Linked(p, final, {}) && r.ref in final && final[r.ref] == r.source
    requires r.ref !in p.requests && r.ref !in p.claims
    requires r.status.PendingEscrow? && StatusFits(r) && RequestOfSource(r)
    ensures Linked(p.(requests := p.requests[r.ref := r]), final, {})
  {
    hide RequestOfSource, ClaimOfSource, OrderFits, VaultLinked;
    var q := p.(requests := p.requests[r.ref := r]);
    forall k <- q.requests ensures RequestLinked(q, k, final, {}) {
      if k != r.ref {
        assert RequestLinked(p, k, final, {});
      }
    }
    forall k <- q.claims ensures ClaimLinked(q, k, final, {}) {
      assert ClaimLinked(p, k, final, {});
    }
    VaultsStay(p, q, final, final);
  }

  /** A new output may become a pending request; it can be neither an old record nor a Claim. */
  lemma AddOutputKeeps(
    p: Projection, final: Outputs, source: LedgerOutput, point: ChainPoint, network: NetworkBinding)
    requires Linked(p, final, {}) && source.ref in final && final[source.ref] == source && source.ref !in p.requests
    ensures Linked(AddOutput(p, source, point, network), final, {})
  {
    hide StatusFits, RequestOfSource, ClaimOfSource, OrderFits, VaultLinked, RequestLinked, Recognize;
    var q := p.(utxos := p.utxos[source.ref := source]);
    LinkedIgnoresUtxos(p, q, final);
    var record := Recognize(p, source, point, network);
    if record.Some? {
      RecognizedIsOfSource(p, source, point, network);
      if source.ref in p.claims {
        assert ClaimLinked(p, source.ref, final, {});
        RequestIsNotClaim(record.value, p.claims[source.ref]);
      }
      AddRequestKeeps(q, final, record.value);
    }
  }

  lemma AddOutputChanges(p: Projection, source: LedgerOutput, point: ChainPoint, network: NetworkBinding)
    ensures
      var q := AddOutput(p, source, point, network);
      && q == p.(utxos := p.utxos[source.ref := source], requests := q.requests)
      && p.requests.Keys <= q.requests.Keys <= p.requests.Keys + {source.ref}
  {
    hide Recognize;
  }

  lemma RequestIsNotClaim(r: RequestRecord, c: ClaimRecord)
    requires RequestOfSource(r) && ClaimOfSource(c)
    ensures r.source != c.source
  {
    hide ClaimValue, AssertSameValue;
  }

  lemma {:induction false} AddOutputsKeep(
    p: Projection, final: Outputs, k: nat, tx: AcceptedTransaction, before: set<Hex>, point: ChainPoint, network: NetworkBinding)
    requires k <= |tx.outputs| && Linked(p, final, {}) && SeenIn(p.requests.Keys, before) && tx.id !in before
    requires forall o <- tx.outputs :: o.ref in final && final[o.ref] == o && o.ref.txId == tx.id
    requires forall i, j :: 0 <= i < j < |tx.outputs| ==> tx.outputs[i].ref != tx.outputs[j].ref
    ensures
      var q := AddOutputs(p, k, tx, point, network);
      && Linked(q, final, {})
      && q.transactions == p.transactions && q.claims.Keys == p.claims.Keys && q.utxos == WithOutputs(p.utxos, tx, k)
      && forall ref <- q.requests :: ref.txId in before || exists i :: 0 <= i < k && tx.outputs[i].ref == ref
  {
    hide Linked, AddOutput;
    if k > 0 {
      AddOutputsKeep(p, final, k - 1, tx, before, point, network);
      var q := AddOutputs(p, k - 1, tx, point, network);
      var source := tx.outputs[k - 1];
      assert source in tx.outputs;
      AddOutputKeeps(q, final, source, point, network);
      AddOutputChanges(q, source, point, network);
    }
  }

  /** Spending first and adding then is the same as removing the inputs from the live outputs. */
  lemma {:induction false} SpendThenAdd(u: Outputs, tx: AcceptedTransaction, k: nat)
    requires k <= |tx.outputs|
    requires forall i :: 0 <= i < |tx.outputs| ==> tx.outputs[i].ref !in tx.inputs
    ensures WithOutputs(u - InputSet(tx), tx, k) == WithOutputs(u, tx, k) - InputSet(tx)
  {
    if k > 0 {
      SpendThenAdd(u, tx, k - 1);
    }
  }

  lemma OwnOutputsAreUnspent(p: Projection, tx: AcceptedTransaction)
    requires FeedOk(p, tx)
    ensures forall i :: 0 <= i < |tx.outputs| ==> tx.outputs[i].ref !in tx.inputs
  {
  }

  /** What a projection looks like when all that is left is to spend inputs and add outputs. */
  ghost predicate Acted(q: Projection, p: Projection, tx: AcceptedTransaction) {
    && Linked(q, Live(p, tx) - InputSet(tx), {})
    && SeenIn(q.requests.Keys, p.transactions)
    && SeenIn(q.claims.Keys, p.transactions + {tx.id})
    && q.utxos == p.utxos && q.transactions == p.transactions + {tx.id}
  }

  /** The unspent outputs after a transaction: nothing spent, everything keyed by its own reference, all unsigned. */
  lemma FinalOutputs(p: Projection, tx: AcceptedTransaction)
    requires Lifecycle(p) && FeedOk(p, tx) && tx.id !in p.transactions
    ensures
      var final := Live(p, tx) - InputSet(tx);
      && final == WithOutputs(p.utxos - InputSet(tx), tx, |tx.outputs|)
      && (forall o <- tx.outputs :: o.ref in final && final[o.ref] == o && o.ref.txId == tx.id)
      && SeenIn(final.Keys, p.transactions + {tx.id})
      && forall ref <- final :: final[ref].ref == ref && UnsignedOutput(final[ref])
  {
    hide Linked, TrackedLive, UnsignedOutput;
    WithOutputsMeans(p.utxos, tx, |tx.outputs|, p);
    OwnOutputsAreUnspent(p, tx);
    SpendThenAdd(p.utxos, tx, |tx.outputs|);
    var final := Live(p, tx) - InputSet(tx);
    forall o <- tx.outputs ensures o.ref in final && final[o.ref] == o && o.ref.txId == tx.id {
      var i :| 0 <= i < |tx.outputs| && tx.outputs[i] == o;
    }
    forall ref <- final
      ensures ref.txId in p.transactions + {tx.id} && final[ref].ref == ref && UnsignedOutput(final[ref])
    {
      if ref !in p.utxos {
        var i :| 0 <= i < |tx.outputs| && tx.outputs[i].ref == ref;
      }
    }
  }

  lemma ProjectUtxosKeeps(q: Projection, p: Projection, tx: AcceptedTransaction, point: ChainPoint, network: NetworkBinding)
    requires Lifecycle(p) && FeedOk(p, tx) && tx.id !in p.transactions && Acted(q, p, tx)
    ensures Lifecycle(ProjectUtxos(q, tx, point, network))
  {
    hide Linked, TrackedLive, AddOutputs, Live, WithOutputs, UnsignedOutput;
    var final := Live(p, tx) - InputSet(tx);
    FinalOutputs(p, tx);
    var spent := q.(utxos := q.utxos - InputSet(tx));
    LinkedIgnoresUtxos(q, spent, final);
    AddOutputsKeep(spent, final, |tx.outputs|, tx, p.transactions, point, network);
  }

  lemma LinkedIgnoresUtxos(q: Projection, spent: Projection, final: Outputs)
    requires Linked(q, final, {}) && spent == q.(utxos := spent.utxos)
    ensures Linked(spent, final, {})
  {
    hide RequestLinked, ClaimLinked, VaultLinked;
    RecordsStay(q, spent, final, {}, final, {});
    VaultsStay(q, spent, final, final);
  }

  lemma ProjectActionsKeep(
    p: Projection, tx: AcceptedTransaction, point: ChainPoint, network: NetworkBinding, builds: seq<ReviewedBuild>,
    selected: Option<set<Hex>>)
    requires Lifecycle(p) && FeedOk(p, tx) && tx.id !in p.transactions
    requires ProjectActions(p.(transactions := p.transactions + {tx.id}), tx, point, network, builds, selected).Ok?
    ensures Acted(ProjectActions(p.(transactions := p.transactions + {tx.id}), tx, point, network, builds, selected).value, p, tx)
  {
    hide VisitVaults, ConsumeInputs, AddVaults, Linked, Acting, TrackedLive, Live;
    var seen := p.(transactions := p.transactions + {tx.id});
    ActionsKeepUtxos(seen, tx, point, network, builds, selected);
    if tx.valid {
      ActionsKeep(p, tx, point, network, builds, selected);
      SpendKeeps(ProjectActions(seen, tx, point, network, builds, selected).value, Live(p, tx), tx, p.transactions);
    } else {
      CollateralKeeps(p, tx);
    }
  }

  /** Every accepted transaction that the feed may deliver keeps the lifecycle invariant. */
  lemma ProjectTransactionKeepsLifecycle(
    p: Projection, tx: AcceptedTransaction, point: ChainPoint, network: NetworkBinding, builds: seq<ReviewedBuild>,
    selected: Option<set<Hex>>)
    requires Lifecycle(p) && FeedOk(p, tx)
    requires ProjectTransaction(p, tx, point, network, builds, selected).Ok?
    ensures Lifecycle(ProjectTransaction(p, tx, point, network, builds, selected).value)
  {
    hide ProjectActions, ProjectUtxos, FeedOk, Acted, Lifecycle;
    var seen := p.(transactions := p.transactions + {tx.id});
    ProjectActionsKeep(p, tx, point, network, builds, selected);
    ProjectUtxosKeeps(ProjectActions(seen, tx, point, network, builds, selected).value, p, tx, point, network);
  }

  lemma EmptyIsLifecycle()
    ensures Lifecycle(EMPTY_PROJECTION)
  {
  }
}
