/** Which outputs of an accepted transaction become Requests, and that each of them keeps its way out. */
module Recognition {
  import opened Results
  import opened Types
  import opened PlutusData
  import opened HexStrings
  import opened Values
  import opened References
  import opened Planning
  import opened Planners
  import opened AcceptedTransactions
  import opened Projections
  import opened Projecting
  import opened Lifecycles
  import opened Participation
  import A = Agreement
  import L = LedgerAgreement

  lemma SettlementKeepsKeys(
    p: Projection, vault: VaultRecord, tx: AcceptedTransaction, entry: SettleEntry, point: ChainPoint, network: NetworkBinding)
    requires RecordSettlement(p, vault, tx, entry, point, network).Ok?
    ensures RecordSettlement(p, vault, tx, entry, point, network).value.requests.Keys == p.requests.Keys
  {
    hide ClaimValue, AssertSameValue, FindOutput, ProtectedOutput, RefId;
  }

  lemma {:induction false} SettlementsKeepKeys(
    p: Projection, vault: VaultRecord, tx: AcceptedTransaction, entries: seq<SettleEntry>, k: nat, point: ChainPoint, network: NetworkBinding)
    requires k <= |entries| && RecordSettlements(p, vault, tx, entries, k, point, network).Ok?
    ensures RecordSettlements(p, vault, tx, entries, k, point, network).value.requests.Keys == p.requests.Keys
  {
    hide RecordSettlement;
    if k > 0 {
      SettlementsKeepKeys(p, vault, tx, entries, k - 1, point, network);
      SettlementKeepsKeys(
        RecordSettlements(p, vault, tx, entries, k - 1, point, network).value, vault, tx, entries[k - 1], point, network);
    }
  }

  lemma VisitKeepsKeys(p: Projection, policy: Hex, tx: AcceptedTransaction, point: ChainPoint, network: NetworkBinding)
    requires VisitVault(p, policy, tx, point, network).Ok?
    ensures VisitVault(p, policy, tx, point, network).value.requests.Keys == p.requests.Keys
  {
    hide RecordSettlements, SuccessorState;
    if policy in p.vaults && p.vaults[policy].state.ref in tx.inputs {
      var action := ActionOf(tx, p.vaults[policy].state.ref).value.state;
      if action.Batch? {
        SettlementsKeepKeys(p, p.vaults[policy], tx, action.entries, |action.entries|, point, network);
      }
    }
  }

  lemma {:induction false} VisitsKeepKeys(
    p: Projection, order: seq<Hex>, k: nat, tx: AcceptedTransaction, point: ChainPoint, network: NetworkBinding)
    requires k <= |order| && VisitVaults(p, order, k, tx, point, network).Ok?
    ensures VisitVaults(p, order, k, tx, point, network).value.requests.Keys == p.requests.Keys
  {
    hide VisitVault;
    if k > 0 {
      VisitsKeepKeys(p, order, k - 1, tx, point, network);
      VisitKeepsKeys(VisitVaults(p, order, k - 1, tx, point, network).value, order[k - 1], tx, point, network);
    }
  }

  lemma {:induction false} ConsumptionKeepsKeys(p: Projection, k: nat, tx: AcceptedTransaction, point: ChainPoint)
    requires k <= |tx.inputs| && ConsumeInputs(p, k, tx, point).Ok?
    ensures ConsumeInputs(p, k, tx, point).value.requests.Keys == p.requests.Keys
  {
    hide ActionOf, FindOutput, ReceiverIndex;
    if k > 0 {
      ConsumptionKeepsKeys(p, k - 1, tx, point);
    }
  }

  lemma {:induction false} AdditionsKeepKeys(p: Projection, vaults: seq<VaultRecord>, k: nat, selected: Option<set<Hex>>)
    requires k <= |vaults| && AddVaults(p, vaults, k, selected).Ok?
    ensures AddVaults(p, vaults, k, selected).value.requests.Keys == p.requests.Keys
  {
    if k > 0 {
      AdditionsKeepKeys(p, vaults, k - 1, selected);
    }
  }

  lemma ActionsKeepKeys(
    p: Projection, tx: AcceptedTransaction, point: ChainPoint, network: NetworkBinding, builds: seq<ReviewedBuild>,
    selected: Option<set<Hex>>)
    requires ProjectActions(p, tx, point, network, builds, selected).Ok?
    ensures ProjectActions(p, tx, point, network, builds, selected).value.requests.Keys == p.requests.Keys
  {
    hide VisitVaults, ConsumeInputs, AddVaults, DiscoverGenesis;
    if tx.valid {
      VisitsKeepKeys(p, p.order, |p.order|, tx, point, network);
      var advanced := VisitVaults(p, p.order, |p.order|, tx, point, network).value;
      ConsumptionKeepsKeys(advanced, |tx.inputs|, tx, point);
      var consumed := ConsumeInputs(advanced, |tx.inputs|, tx, point).value;
      var discovered := DiscoverGenesis(tx, builds, point, network).value;
      AdditionsKeepKeys(consumed, discovered, |discovered|, selected);
    }
  }

  /** Adding outputs records each under its own reference exactly when it is recognized. */
  lemma {:induction false} AddedRequests(p: Projection, k: nat, tx: AcceptedTransaction, point: ChainPoint, network: NetworkBinding, i: nat)
    requires k <= |tx.outputs| && i < |tx.outputs| && tx.outputs[i].ref !in p.requests
    requires forall j, l :: 0 <= j < l < |tx.outputs| ==> tx.outputs[j].ref != tx.outputs[l].ref
    ensures
      var o, r := tx.outputs[i], AddOutputs(p, k, tx, point, network);
      && r.vaults == p.vaults
      && (o.ref in r.requests <==> i < k && Recognize(p, o, point, network).Some?)
      && (o.ref in r.requests ==> r.requests[o.ref] == Recognize(p, o, point, network).value)
  {
    hide Recognize;
    if k > 0 {
      AddedRequests(p, k - 1, tx, point, network, i);
      SameVaultsRecognize(AddOutputs(p, k - 1, tx, point, network), p, tx.outputs[k - 1], point, network);
    }
  }

  lemma SameVaultsRecognize(p: Projection, q: Projection, source: LedgerOutput, point: ChainPoint, network: NetworkBinding)
    requires p.vaults == q.vaults
    ensures Recognize(p, source, point, network) == Recognize(q, source, point, network)
    ensures Recognize(p, source, point, network).Some? ==> Recognize(p, source, point, network).value.ref == source.ref
  {
  }

  /** Custody that can hold a Request of a vault: its own script, on this network, bare of STATE, hashes and scripts. */
  predicate IsEscrow(o: LedgerOutput, policy: Hex, network: NetworkBinding) {
    && o.content.address.networkId == network.networkId && o.content.address.kind == EnterpriseAddress
    && o.content.address.payment == Some(Credential(Script, policy))
    && !o.content.hasDatumHash && !o.content.hasScriptRef
    && Qty(o.content.value, Native(policy, TokenHex(StateToken))) == 0
  }

  /** The record of an escrow output under an envelope that names a vault: with or without readable economics. */
  function EscrowRecord(o: LedgerOutput, policy: Hex, recovery: Recovery, request: Option<Request>, point: ChainPoint): RequestRecord {
    RequestRecord(o.ref, policy, recovery, request, o, point, PendingEscrow, None, None)
  }

  /** Which record an output must become, if any. */
  predicate Becomes(o: LedgerOutput, policy: Hex, network: NetworkBinding, point: ChainPoint, record: RequestRecord) {
    && IsEscrow(o, policy, network) && o.content.datum.Some?
    && match o.content.datum.value
       case RequestDatum(request) =>
         request.recovery.vaultPolicy == policy && record == EscrowRecord(o, policy, request.recovery, Some(request), point)
       case RecoveryDatum(recovery, _) =>
         recovery.vaultPolicy == policy && record == EscrowRecord(o, policy, recovery, None, point)
       case _ => false
  }

  lemma RecognizeIsExact(
    p: Projection, o: LedgerOutput, point: ChainPoint, network: NetworkBinding, policy: Hex, record: RequestRecord)
    ensures policy in p.vaults && p.vaults[policy].deployment.family == Ctvs2 && Becomes(o, policy, network, point, record)
      ==> Recognize(p, o, point, network) == Some(record)
    ensures Recognize(p, o, point, network).Some? ==>
      var r := Recognize(p, o, point, network).value;
      r.policy in p.vaults && p.vaults[r.policy].deployment.family == Ctvs2 && Becomes(o, r.policy, network, point, r)
  {
    hide Qty, TokenHex;
  }

  /**
   * Recording of Requests is exact: an output of an accepted transaction becomes a Request if and only if it is bare escrow
   * at a request-path vault known by then, under an envelope that names the vault, whether or not the economics can be
   * read; and the record is pending and carries that Recovery.
   */
  lemma RequestsAreExact(
    p: Projection, tx: AcceptedTransaction, point: ChainPoint, network: NetworkBinding, builds: seq<ReviewedBuild>,
    selected: Option<set<Hex>>, q: Projection, i: nat, policy: Hex, record: RequestRecord)
    requires Lifecycle(p) && FeedOk(p, tx) && ProjectTransaction(p, tx, point, network, builds, selected) == Ok(q)
    requires i < |tx.outputs|
    ensures policy in q.vaults && q.vaults[policy].deployment.family == Ctvs2 && Becomes(tx.outputs[i], policy, network, point, record)
      ==> tx.outputs[i].ref in q.requests && q.requests[tx.outputs[i].ref] == record
    ensures tx.outputs[i].ref in q.requests ==>
      var r := q.requests[tx.outputs[i].ref];
      r.policy in q.vaults && q.vaults[r.policy].deployment.family == Ctvs2 && Becomes(tx.outputs[i], r.policy, network, point, r)
  {
    hide ProjectActions, AddOutputs, Recognize, Becomes, Linked, UnsignedOutput, TrackedLive;
    var seen := p.(transactions := p.transactions + {tx.id});
    var acted := ProjectActions(seen, tx, point, network, builds, selected).value;
    var spent := acted.(utxos := acted.utxos - InputSet(tx));
    ActionsKeepKeys(seen, tx, point, network, builds, selected);
    AddedRequests(spent, |tx.outputs|, tx, point, network, i);
    RecognizeIsExact(spent, tx.outputs[i], point, network, policy, record);
  }

  /** The evidence that a planner is given about a recorded Request. */
  function EvidenceOf(r: RequestRecord): ProtectedInput
    requires r.source.content.datum.Some?
  {
    ProtectedInput(r.source.ref, Enterprise(Script, r.policy), r.source.content.datum.value, r.source.content.value)
  }

  /** What decoding and the ledger give of a recorded Request: a shaped Recovery, and canonical custody at a real reference. */
  predicate Decoded(r: RequestRecord, deployment: Deployment) {
    && RecoveryShape(r.recovery) && IsActual(r.source.content.value) && IsReference(r.source.ref)
    && deployment.policy == r.policy == Lower(r.policy) && deployment.family == Ctvs2 && deployment.claimScript.Some?
  }

  lemma RecordedRecovery(o: LedgerOutput, policy: Hex, network: NetworkBinding, point: ChainPoint, r: RequestRecord)
    requires Becomes(o, policy, network, point, r) && RecoveryShape(r.recovery)
    ensures r.source == o && r.policy == policy && r.status == PendingEscrow && o.content.datum.Some?
    ensures RecoveryOf(o.content.datum.value) == Ok(r.recovery) && r.recovery.vaultPolicy == policy
    ensures Qty(o.content.value, Native(policy, TokenHex(StateToken))) == 0
  {
    hide RecoveryShape, Qty, TokenHex;
  }

  /**
   * The way out does not depend on the economics: every recorded Request, readable or not, has a cancellation in every finite
   * interval and an expiry refund in those from its deadline on, unless it holds the vault's ID token; and realizing the
   * plan is recorded as the refund.
   */
  lemma RecordedIsRefundable(
    o: LedgerOutput, network: NetworkBinding, point: ChainPoint, r: RequestRecord, deployment: Deployment, mode: RefundMode,
    validity: TimeBounds)
    requires Becomes(o, r.policy, network, point, r) && Decoded(r, deployment)
    ensures r.source.content.datum.Some?
    ensures RefundPlan(deployment, EvidenceOf(r), mode, validity).Ok? <==>
      && FiniteValidity(validity).Pass? && (mode == Expiry ==> r.recovery.deadlinePosixMs <= validity.lowerPosixMs)
      && Qty(o.content.value, Native(r.policy, TokenHex(IdToken))) == 0
  {
    hide RefundPlan, Becomes, RecoveryOf, RecoveryShape, Qty, TokenHex, FiniteValidity, IsActual, IsReference;
    RecordedRecovery(o, r.policy, network, point, r);
    OwnIsCanonical(r.policy, StateToken);
    OwnIsCanonical(r.policy, IdToken);
    RecoveryNames(r.recovery);
    var source := EvidenceOf(r);
    assert AssertProtectedInput(source, deployment.policy).Pass?;
    if Qty(o.content.value, Native(r.policy, TokenHex(IdToken))) == 0 {
      RefundExists(deployment, source, r.recovery, mode, validity);
    } else if RefundPlan(deployment, source, mode, validity).Ok? {
      RefundConserves(deployment, source, mode, validity, RefundPlan(deployment, source, mode, validity).value, r.recovery, Ada);
    }
  }

  lemma RecoveryNames(recovery: Recovery)
    requires RecoveryShape(recovery)
    ensures SameHex(recovery.vaultPolicy, recovery.vaultPolicy)
  {
  }

  lemma OwnIsCanonical(policy: Hex, token: TokenName)
    requires Lower(policy) == policy
    ensures AssetId(OwnAsset(policy, token)) == Native(policy, TokenHex(token))
  {
    hide Lower, TokenHex;
    OwnAssetId(policy, token);
  }

  /** Realizing the refund of a recorded Request, readable or not, records it as refunded into the planned output. */
  lemma RecordedRefundIsRecorded(
    o: LedgerOutput, network: NetworkBinding, created: ChainPoint, r: RequestRecord, deployment: Deployment, mode: RefundMode,
    validity: TimeBounds, p: Projection, tx: AcceptedTransaction, point: ChainPoint)
    requires Becomes(o, r.policy, network, created, r) && Decoded(r, deployment) && RefId(o.ref) == o.ref
    requires o.ref in p.requests && p.requests[o.ref] == r && r.source.content.datum.Some?
    requires RefundPlan(deployment, EvidenceOf(r), mode, validity).Ok?
    requires A.Realizes(tx, RefundPlan(deployment, EvidenceOf(r), mode, validity).value, network)
    ensures RefundConsumed(p, o.ref, tx, point)
         == Ok(p.(requests := p.requests[o.ref := r.(
              status := Refunded, completion := Some(CompletionRecord(tx.id, OutRef(tx.id, 0), point)))]))
  {
    hide RefundPlan, Becomes, RefundConsumed, A.Realizes, Decoded, RecoveryShape;
    RecordedStatus(o, r.policy, network, created, r);
    A.PlannedRefundIsRecorded(deployment, EvidenceOf(r), mode, validity, p, tx, point, network);
  }

  lemma RecordedStatus(o: LedgerOutput, policy: Hex, network: NetworkBinding, point: ChainPoint, r: RequestRecord)
    requires Becomes(o, policy, network, point, r)
    ensures r.source == o && r.status == PendingEscrow
  {
    hide Qty, TokenHex;
  }
}
