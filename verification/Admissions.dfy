/** Why a projection changes: the evidence in the accepted transaction behind every settlement, completion and State. */
module Admissions {
  import opened Results
  import opened Types
  import opened Arithmetic
  import opened HexStrings
  import opened References
  import opened Values
  import opened Quotes
  import opened Planning
  import opened AcceptedTransactions
  import opened Projections
  import opened Projecting
  import opened Lifecycles
  import opened Acceptance
  import opened Premises

  /** Exact custody of a script on a network: an enterprise address, an inline datum, no datum hash, no reference script. */
  predicate IsAtScript(o: LedgerOutput, script: Hex, network: NetworkBinding) {
    && o.content.address.networkId == network.networkId && o.content.address.kind == EnterpriseAddress
    && o.content.address.payment == Some(Credential(Script, script))
    && o.content.datum != None && !o.content.hasDatumHash && !o.content.hasScriptRef
  }

  lemma AtScriptMeans(o: LedgerOutput, script: Hex, network: NetworkBinding)
    ensures ProtectedOutput(o, script, network.networkId).Ok? <==> IsAtScript(o, script, network)
    ensures IsAtScript(o, script, network) ==>
      ProtectedOutput(o, script, network.networkId)
      == Ok(ProtectedInput(o.ref, Address(Credential(Script, script), None), o.content.datum.value, o.content.value))
  {
  }

  predicate IsOutputOf(o: LedgerOutput, tx: AcceptedTransaction, index: int) {
    o in tx.outputs && o.ref.index == index
  }

  lemma {:induction false} FindOutputMeans(outputs: seq<LedgerOutput>, index: int)
    ensures FindOutput(outputs, index).None? <==> forall o <- outputs :: o.ref.index != index
    ensures FindOutput(outputs, index).Some? ==>
      exists k :: 0 <= k < |outputs| && FindOutput(outputs, index) == Some(outputs[k]) && outputs[k].ref.index == index
        && forall j :: 0 <= j < k ==> outputs[j].ref.index != index
  {
    if outputs != [] {
      FindOutputMeans(outputs[1..], index);
      assert outputs == [outputs[0]] + outputs[1..];
      if outputs[0].ref.index != index && FindOutput(outputs[1..], index).Some? {
        var rest := outputs[1..];
        var k :| 0 <= k < |rest| && FindOutput(rest, index) == Some(rest[k]) && rest[k].ref.index == index
          && forall j :: 0 <= j < k ==> rest[j].ref.index != index;
        assert outputs[k + 1] == rest[k];
        forall j | 0 <= j < k + 1 ensures outputs[j].ref.index != index {
          if j > 0 {
            assert outputs[j] == rest[j - 1];
          }
        }
      }
    }
  }

  /** The outputs of an accepted valid transaction are found at their own positions. */
  lemma FoundAtPosition(tx: AcceptedTransaction, index: int)
    requires forall i :: 0 <= i < |tx.outputs| ==> tx.outputs[i].ref.index == i
    ensures FindOutput(tx.outputs, index) == if 0 <= index < |tx.outputs| then Some(tx.outputs[index]) else None
  {
    FindOutputMeans(tx.outputs, index);
  }

  /** The fixed liability and the carried ADA of a Claim: nothing missing, nothing else. */
  ghost predicate HoldsClaim(v: Value, c: Claim) {
    && IsNamed(c.asset) && IsAmount(c.carriedLovelace) && IsAmount(c.economicQuantity) && IsCanonical(v)
    && forall a :: Qty(v, a) == When(a == Ada, c.carriedLovelace) + When(a == AssetId(c.asset), c.economicQuantity)
  }

  lemma ClaimHoldingMeans(v: Value, c: Claim)
    ensures ClaimValue(c).Ok? && AssertSameValue(v, ClaimValue(c).value).Pass? <==> HoldsClaim(v, c)
  {
    hide IsNamed, IsCanonical, AssertSameValue, ValueOf, IsAmount;
    var entries := ClaimEntries(c);
    EquationIsExact(v, entries);
    AdaIsNamed();
    forall a ensures EntrySum(entries, a) == When(a == Ada, c.carriedLovelace) + When(a == AssetId(c.asset), c.economicQuantity) {
      SumOfTwo(entries[0], entries[1], a);
    }
    forall e <- entries ensures e == entries[0] || e == entries[1] {
    }
    assert entries[0] in entries && entries[1] in entries;
  }

  /** A Claim output of a vault for one Request: right script, right lineage, exact value. */
  ghost predicate IsClaimFor(o: LedgerOutput, vault: VaultRecord, request: OutRef, network: NetworkBinding) {
    && vault.deployment.claimScript.Some? && IsAtScript(o, vault.deployment.claimScript.value, network)
    && o.content.datum.value.ClaimDatum?
    && var c := o.content.datum.value.claim;
       && c.vaultPolicy == vault.deployment.policy && c.termsHash == vault.deployment.termsHash
       && OutRef(Lower(c.requestRef.txId), c.requestRef.index) == request
       && OutRef(Lower(c.stateRef.txId), c.stateRef.index) == vault.state.ref
       && HoldsClaim(o.content.value, c)
  }

  /** What a settlement of one entry needs of the projection and the transaction, and what it then records. */
  ghost predicate IsSettledBy(
    p: Projection, q: Projection, vault: VaultRecord, tx: AcceptedTransaction, entry: SettleEntry, o: LedgerOutput, point: ChainPoint,
    network: NetworkBinding)
  {
    var k := OutRef(Lower(entry.requestRef.txId), entry.requestRef.index);
    && k in p.requests && p.requests[k].status == PendingEscrow && k in tx.inputs
    && IsClaimFor(o, vault, p.requests[k].ref, network)
    && q == p.(
         requests := p.requests[k := p.requests[k].(
           status := Claimable, settlement := Some(SettlementRecord(tx.id, vault.state.ref, o.ref, point)))],
         claims := p.claims[o.ref := ClaimRecord(o.ref, o.content.datum.value.claim, o, p.requests[k].ref, false)])
  }

  /** A settlement is recorded exactly when the allocated output is a Claim for the Request, pending and spent, of this vault. */
  lemma SettlementMeans(
    p: Projection, q: Projection, vault: VaultRecord, tx: AcceptedTransaction, entry: SettleEntry, point: ChainPoint, network: NetworkBinding)
    ensures
      var found := FindOutput(tx.outputs, entry.claimOutput);
      RecordSettlement(p, vault, tx, entry, point, network) == Ok(q) <==>
        found.Some? && IsSettledBy(p, q, vault, tx, entry, found.value, point, network)
  {
    hide ClaimValue, AssertSameValue, HoldsClaim, IsAtScript, ProtectedOutput, Lower;
    var found := FindOutput(tx.outputs, entry.claimOutput);
    if found.Some? && vault.deployment.claimScript.Some? {
      AtScriptMeans(found.value, vault.deployment.claimScript.value, network);
      if found.value.content.datum.Some? && found.value.content.datum.value.ClaimDatum? {
        ClaimHoldingMeans(found.value.content.value, found.value.content.datum.value.claim);
      }
    }
  }

  /** What the State after a consumed one must be: next in sequence, same identity, exact custody at the vault's script. */
  ghost predicate Succeeds(vault: VaultRecord, o: LedgerOutput, network: NetworkBinding) {
    && IsAtScript(o, vault.deployment.policy, network) && vault.state.datum.StateDatum? && o.content.datum.value.StateDatum?
    && var before, after := vault.state.datum.state, o.content.datum.value.state;
       && after.sequence == before.sequence + 1 && after.vaultPolicy == before.vaultPolicy && after.termsHash == before.termsHash
       && HoldsStateExactly(o.content.value, after, vault.terms)
  }

  ghost predicate HoldsStateExactly(v: Value, s: State, t: Terms) {
    && IsHex(s.vaultPolicy, 28) && IsNamed(t.underlying) && IsAmount(s.storageLovelace) && IsAmount(s.backingAssets + s.accruedFees)
    && IsCanonical(v) && HoldsState(v, s, t)
  }

  lemma StateExactlyMeans(v: Value, s: State, t: Terms)
    ensures StateValue(s, t).Ok? && AssertSameValue(v, StateValue(s, t).value).Pass? <==> HoldsStateExactly(v, s, t)
  {
    hide ParseHex, ParseHexOf, IsHex, IsCanonical, AssertSameValue, IsDigits, ValueOf, Lower, TokenHex, IsAmount;
    var entries := StateEntries(s, t);
    EquationIsExact(v, entries);
    TokenNamesAreSpelled();
    AllHexMeans();
    OwnAssetId(s.vaultPolicy, StateToken);
    if IsHex(s.vaultPolicy, 28) {
      NameIsNamed(s.vaultPolicy, StateToken);
    }
    AdaIsNamed();
    OneIsAmount();
    forall a ensures EntrySum(entries, a)
      == When(a == Ada, s.storageLovelace) + When(a == AssetId(t.underlying), s.backingAssets + s.accruedFees)
       + When(a == Native(Lower(s.vaultPolicy), "5354415445"), 1)
    {
      SumOfThree(entries[0], entries[1], entries[2], a);
    }
    forall e <- entries ensures e == entries[0] || e == entries[1] || e == entries[2] {
    }
    assert entries[0] in entries && entries[1] in entries && entries[2] in entries;
  }

  lemma OneIsAmount()
    ensures IsAmount(1)
  {
  }

  lemma SuccessorMeans(vault: VaultRecord, tx: AcceptedTransaction, action: StateRedeemer, network: NetworkBinding, state: ProtectedInput)
    ensures
      var found := FindOutput(tx.outputs, action.stateOutput);
      SuccessorState(vault, tx, action, network) == Ok(state) <==>
        && found.Some? && Succeeds(vault, found.value, network)
        && state == ProtectedInput(
             found.value.ref, Address(Credential(Script, vault.deployment.policy), None), found.value.content.datum.value,
             found.value.content.value)
  {
    hide StateValue, AssertSameValue, HoldsStateExactly, IsAtScript, ProtectedOutput;
    var found := FindOutput(tx.outputs, action.stateOutput);
    if found.Some? {
      AtScriptMeans(found.value, vault.deployment.policy, network);
      if found.value.content.datum.Some? && found.value.content.datum.value.StateDatum? {
        StateExactlyMeans(found.value.content.value, found.value.content.datum.value.state, vault.terms);
      }
    }
  }

  /** A transaction that spends a reference under a redeemer. */
  predicate SpendsWith(tx: AcceptedTransaction, ref: OutRef, redeemer: Redeemer) {
    ref in tx.spends && tx.spends[ref] == Some(redeemer)
  }

  /** A refund's completion: its redeemer names the output that the record then points to. */
  ghost predicate IsRefundedBy(tx: AcceptedTransaction, ref: OutRef, index: int, mode: RefundMode, completion: CompletionRecord, point: ChainPoint) {
    && ref in tx.inputs && SpendsWith(tx, ref, RequestAction(Refund(mode, index)))
    && completion.txId == tx.id && completion.point == point
    && exists o :: IsOutputOf(o, tx, index) && o.ref == completion.output
  }

  lemma FoundIsOutput(tx: AcceptedTransaction, index: int)
    requires FindOutput(tx.outputs, index).Some?
    ensures IsOutputOf(FindOutput(tx.outputs, index).value, tx, index)
  {
  }

  /** A pending Request that is consumed must be refunded; anything else is untouched. */
  lemma RefundedMeans(p: Projection, ref: OutRef, tx: AcceptedTransaction, point: ChainPoint)
    requires ref in tx.inputs && RefundConsumed(p, ref, tx, point).Ok?
    ensures
      var q := RefundConsumed(p, ref, tx, point).value;
      if ref in p.requests && p.requests[ref].status == PendingEscrow then
        exists mode, index, completion ::
          && IsRefundedBy(tx, ref, index, mode, completion, point)
          && q == p.(requests := p.requests[ref := p.requests[ref].(status := Refunded, completion := Some(completion))])
      else q == p
  {
    hide FindOutput;
    if ref in p.requests && p.requests[ref].status.PendingEscrow? {
      var action := ActionOf(tx, ref).value.request;
      var found := FindOutput(tx.outputs, action.refundOutput).value;
      FoundIsOutput(tx, action.refundOutput);
      assert IsRefundedBy(tx, ref, action.refundOutput, action.mode, CompletionRecord(tx.id, found.ref, point), point);
    }
  }

  /** A delivery's completion: the redeemer's entry for the Claim names the output that the record then points to. */
  ghost predicate IsDeliveredBy(
    tx: AcceptedTransaction, ref: OutRef, entries: seq<DeliverEntry>, i: nat, completion: CompletionRecord, point: ChainPoint)
  {
    && ref in tx.inputs && SpendsWith(tx, ref, ClaimAction(Deliver(entries)))
    && i < |entries| && OutRef(Lower(entries[i].claimRef.txId), entries[i].claimRef.index) == ref
    && completion.txId == tx.id && completion.point == point
    && exists o :: IsOutputOf(o, tx, entries[i].receiverOutput) && o.ref == completion.output
  }

  lemma {:induction false} ReceiverIndexMeans(entries: seq<DeliverEntry>, ref: OutRef)
    ensures ReceiverIndex(entries, ref).None? <==>
      forall i :: 0 <= i < |entries| ==> OutRef(Lower(entries[i].claimRef.txId), entries[i].claimRef.index) != ref
    ensures ReceiverIndex(entries, ref).Some? ==> exists i ::
      && 0 <= i < |entries| && OutRef(Lower(entries[i].claimRef.txId), entries[i].claimRef.index) == ref
      && ReceiverIndex(entries, ref) == Some(entries[i].receiverOutput)
      && forall j :: 0 <= j < i ==> OutRef(Lower(entries[j].claimRef.txId), entries[j].claimRef.index) != ref
  {
    hide Lower;
    if entries != [] {
      var rest := entries[1..];
      ReceiverIndexMeans(rest, ref);
      assert entries == [entries[0]] + rest;
      if RefId(entries[0].claimRef) != ref && ReceiverIndex(rest, ref).Some? {
        var i :| 0 <= i < |rest| && OutRef(Lower(rest[i].claimRef.txId), rest[i].claimRef.index) == ref
          && ReceiverIndex(rest, ref) == Some(rest[i].receiverOutput)
          && forall j :: 0 <= j < i ==> OutRef(Lower(rest[j].claimRef.txId), rest[j].claimRef.index) != ref;
        assert entries[i + 1] == rest[i];
        forall j | 0 <= j < i + 1 ensures OutRef(Lower(entries[j].claimRef.txId), entries[j].claimRef.index) != ref {
          if j > 0 {
            assert entries[j] == rest[j - 1];
          }
        }
      }
    }
  }

  /** A tracked Claim that is consumed must be delivered, and completes its Request; anything else is untouched. */
  lemma DeliveredMeans(p: Projection, ref: OutRef, tx: AcceptedTransaction, point: ChainPoint)
    requires ref in tx.inputs && DeliverConsumed(p, ref, tx, point).Ok?
    ensures
      var q := DeliverConsumed(p, ref, tx, point).value;
      if ref in p.claims then
        && p.claims[ref].request in p.requests
        && exists entries, i, completion ::
             && IsDeliveredBy(tx, ref, entries, i, completion, point)
             && q == p.(
                  requests := p.requests[p.claims[ref].request := p.requests[p.claims[ref].request].(
                    status := Delivered, completion := Some(completion))],
                  claims := p.claims[ref := p.claims[ref].(delivered := true)])
      else q == p
  {
    hide FindOutput, ReceiverIndex, Lower;
    if ref in p.claims {
      var entries := ActionOf(tx, ref).value.claim.deliveries;
      ReceiverIndexMeans(entries, ref);
      var i :| 0 <= i < |entries| && OutRef(Lower(entries[i].claimRef.txId), entries[i].claimRef.index) == ref
        && ReceiverIndex(entries, ref) == Some(entries[i].receiverOutput);
      FoundIsOutput(tx, entries[i].receiverOutput);
      var found := FindOutput(tx.outputs, entries[i].receiverOutput).value;
      assert IsDeliveredBy(tx, ref, entries, i, CompletionRecord(tx.id, found.ref, point), point);
    }
  }

  /** One of a batch's allocations: an entry for the Request, and the Claim at the output it names. */
  ghost predicate IsAllocated(
    tx: AcceptedTransaction, vault: VaultRecord, entries: seq<SettleEntry>, i: nat, k: OutRef, o: LedgerOutput, network: NetworkBinding)
  {
    && i < |entries| && OutRef(Lower(entries[i].requestRef.txId), entries[i].requestRef.index) == k
    && IsOutputOf(o, tx, entries[i].claimOutput) && IsClaimFor(o, vault, k, network)
  }

  /** Why a Request has become Claimable: it was pending, it is spent, and a batch of a vault allocates it a Claim. */
  ghost predicate Settles(
    r: RequestRecord, s: RequestRecord, k: OutRef, tx: AcceptedTransaction, vault: VaultRecord, entries: seq<SettleEntry>,
    point: ChainPoint, network: NetworkBinding)
  {
    && r.status == PendingEscrow && k in tx.inputs
    && exists i, o :: IsAllocated(tx, vault, entries, i, k, o, network)
         && s == r.(status := Claimable, settlement := Some(SettlementRecord(tx.id, vault.state.ref, o.ref, point)))
  }

  /** Records under their own references, so that a settlement is for the key it is found at. */
  predicate Keyed(p: Projection) {
    forall k <- p.requests :: p.requests[k].ref == k
  }

  ghost predicate SettledWith(
    p: Projection, q: Projection, tx: AcceptedTransaction, vault: VaultRecord, entries: seq<SettleEntry>, point: ChainPoint,
    network: NetworkBinding)
  {
    && q == p.(requests := q.requests, claims := q.claims) && q.requests.Keys == p.requests.Keys && Keyed(q)
    && (forall k <- p.requests :: q.requests[k] == p.requests[k]
          || Settles(p.requests[k], q.requests[k], k, tx, vault, entries, point, network))
    && forall c <- q.claims :: (c in p.claims && q.claims[c] == p.claims[c])
         || exists i, k, o :: IsAllocated(tx, vault, entries, i, k, o, network) && o.ref == c && k in p.requests
              && q.claims[c] == ClaimRecord(c, o.content.datum.value.claim, o, k, false)
  }

  lemma {:induction false} SettlementsHaveEvidence(
    p: Projection, vault: VaultRecord, tx: AcceptedTransaction, entries: seq<SettleEntry>, k: nat, point: ChainPoint, network: NetworkBinding)
    requires k <= |entries| && RecordSettlements(p, vault, tx, entries, k, point, network).Ok? && Keyed(p)
    ensures SettledWith(p, RecordSettlements(p, vault, tx, entries, k, point, network).value, tx, vault, entries, point, network)
  {
    hide RecordSettlement, IsClaimFor, Lower, FindOutput;
    if k > 0 {
      var m, q := RecordSettlements(p, vault, tx, entries, k - 1, point, network).value,
        RecordSettlements(p, vault, tx, entries, k, point, network).value;
      SettlementsHaveEvidence(p, vault, tx, entries, k - 1, point, network);
      SettlementMeans(m, q, vault, tx, entries[k - 1], point, network);
      var o := FindOutput(tx.outputs, entries[k - 1].claimOutput).value;
      FoundIsOutput(tx, entries[k - 1].claimOutput);
      var key := OutRef(Lower(entries[k - 1].requestRef.txId), entries[k - 1].requestRef.index);
      assert IsAllocated(tx, vault, entries, k - 1, key, o, network);
      assert Settles(m.requests[key], q.requests[key], key, tx, vault, entries, point, network);
    }
  }

  predicate HasBatch(tx: AcceptedTransaction, vault: VaultRecord, entries: seq<SettleEntry>) {
    && vault.state.ref in tx.inputs && vault.state.ref in tx.spends
    && match tx.spends[vault.state.ref]
       case Some(StateAction(Batch(_, batch, _, _))) => batch == entries
       case _ => false
  }

  /** A settlement by a batch of one of the vaults as they stood before the transaction. */
  ghost predicate IsSettlement(
    r: RequestRecord, s: RequestRecord, k: OutRef, tx: AcceptedTransaction, vaults: map<Hex, VaultRecord>, point: ChainPoint,
    network: NetworkBinding)
  {
    exists policy, entries ::
      policy in vaults && HasBatch(tx, vaults[policy], entries) && Settles(r, s, k, tx, vaults[policy], entries, point, network)
  }

  ghost predicate IsNewClaim(
    c: ClaimRecord, ref: OutRef, requests: set<OutRef>, tx: AcceptedTransaction, vaults: map<Hex, VaultRecord>, network: NetworkBinding)
  {
    exists policy, entries, i, k, o ::
      && policy in vaults && HasBatch(tx, vaults[policy], entries) && IsAllocated(tx, vaults[policy], entries, i, k, o, network)
      && k in requests && o.ref == ref && c == ClaimRecord(ref, o.content.datum.value.claim, o, k, false)
  }

  /** What the visits to the vaults may do to the records: settle pending Requests, and add the Claims that batches allocate. */
  ghost predicate VisitedWith(
    p: Projection, q: Projection, tx: AcceptedTransaction, vaults: map<Hex, VaultRecord>, point: ChainPoint, network: NetworkBinding)
  {
    && q == p.(vaults := q.vaults, requests := q.requests, claims := q.claims) && q.requests.Keys == p.requests.Keys && Keyed(q)
    && (forall k <- p.requests :: q.requests[k] == p.requests[k]
          || IsSettlement(p.requests[k], q.requests[k], k, tx, vaults, point, network))
    && forall c <- q.claims :: (c in p.claims && q.claims[c] == p.claims[c])
         || IsNewClaim(q.claims[c], c, p.requests.Keys, tx, vaults, network)
  }

  lemma VisitedIsTransitive(
    p: Projection, m: Projection, q: Projection, tx: AcceptedTransaction, vaults: map<Hex, VaultRecord>, point: ChainPoint,
    network: NetworkBinding)
    requires VisitedWith(p, m, tx, vaults, point, network) && VisitedWith(m, q, tx, vaults, point, network)
    ensures VisitedWith(p, q, tx, vaults, point, network)
  {
    hide IsNewClaim, HasBatch, IsAllocated;
  }

  lemma SettledIsVisited(
    p: Projection, q: Projection, tx: AcceptedTransaction, vaults: map<Hex, VaultRecord>, policy: Hex, entries: seq<SettleEntry>,
    point: ChainPoint, network: NetworkBinding)
    requires policy in vaults && HasBatch(tx, vaults[policy], entries)
    requires SettledWith(p, q, tx, vaults[policy], entries, point, network)
    ensures VisitedWith(p, q, tx, vaults, point, network)
  {
    hide HasBatch, HoldsClaim, Settles;
    forall k <- p.requests | q.requests[k] != p.requests[k]
      ensures IsSettlement(p.requests[k], q.requests[k], k, tx, vaults, point, network)
    {
      assert Settles(p.requests[k], q.requests[k], k, tx, vaults[policy], entries, point, network);
    }
    forall c <- q.claims | !(c in p.claims && q.claims[c] == p.claims[c])
      ensures IsNewClaim(q.claims[c], c, p.requests.Keys, tx, vaults, network)
    {
      var i, k, o :| IsAllocated(tx, vaults[policy], entries, i, k, o, network) && o.ref == c && k in p.requests
        && q.claims[c] == ClaimRecord(c, o.content.datum.value.claim, o, k, false);
    }
  }

  /** A visit's effect on its vault: the Config stays unspent, and the State moves exactly when it is spent, to its successor. */
  ghost predicate Moves(v: VaultRecord, w: VaultRecord, tx: AcceptedTransaction, point: ChainPoint, network: NetworkBinding) {
    && v.deployment.configRef !in tx.inputs
    && if v.state.ref in tx.inputs then
         exists action, o ::
           && SpendsWith(tx, v.state.ref, StateAction(action)) && IsOutputOf(o, tx, action.stateOutput) && Succeeds(v, o, network)
           && w == v.(
                state := ProtectedInput(
                  o.ref, Address(Credential(Script, v.deployment.policy), None), o.content.datum.value, o.content.value),
                deployment := v.deployment.(chainPoint := point))
       else w == v
  }

  lemma VisitHasEvidence(
    p: Projection, policy: Hex, tx: AcceptedTransaction, point: ChainPoint, network: NetworkBinding, vaults: map<Hex, VaultRecord>)
    requires VisitVault(p, policy, tx, point, network).Ok? && Keyed(p)
    requires policy in p.vaults && policy in vaults && vaults[policy] == p.vaults[policy]
    ensures
      var q := VisitVault(p, policy, tx, point, network).value;
      && VisitedWith(p, q, tx, vaults, point, network)
      && policy in q.vaults && q.vaults == p.vaults[policy := q.vaults[policy]]
      && Moves(p.vaults[policy], q.vaults[policy], tx, point, network)
  {
    hide RecordSettlements, SuccessorState, Succeeds, FindOutput, IsAllocated, IsNewClaim, IsSettlement, Settles;
    var vault, q := p.vaults[policy], VisitVault(p, policy, tx, point, network).value;
    if vault.state.ref in tx.inputs {
      var action := ActionOf(tx, vault.state.ref).value.state;
      var state := SuccessorState(vault, tx, action, network).value;
      SuccessorMeans(vault, tx, action, network, state);
      FoundIsOutput(tx, action.stateOutput);
      assert SpendsWith(tx, vault.state.ref, StateAction(action));
      if action.Batch? {
        SettlementsHaveEvidence(p, vault, tx, action.entries, |action.entries|, point, network);
        var settled := RecordSettlements(p, vault, tx, action.entries, |action.entries|, point, network).value;
        SettledIsVisited(p, settled, tx, vaults, policy, action.entries, point, network);
      }
    }
  }

  /** Visiting every vault in order: each moves as its own inputs say, and the records change only by their batches. */
  lemma {:induction false} VisitsHaveEvidence(
    p: Projection, k: nat, tx: AcceptedTransaction, point: ChainPoint, network: NetworkBinding)
    requires k <= |p.order| && OrderFits(p) && Keyed(p) && VisitVaults(p, p.order, k, tx, point, network).Ok?
    ensures
      var q := VisitVaults(p, p.order, k, tx, point, network).value;
      && VisitedWith(p, q, tx, p.vaults, point, network) && q.vaults.Keys == p.vaults.Keys
      && (forall i :: 0 <= i < k ==> Moves(p.vaults[p.order[i]], q.vaults[p.order[i]], tx, point, network))
      && forall i :: k <= i < |p.order| ==> q.vaults[p.order[i]] == p.vaults[p.order[i]]
  {
    hide VisitVault, IsSettlement, IsNewClaim, Moves;
    if k > 0 {
      var m := VisitVaults(p, p.order, k - 1, tx, point, network).value;
      VisitsHaveEvidence(p, k - 1, tx, point, network);
      VisitHasEvidence(m, p.order[k - 1], tx, point, network, p.vaults);
      VisitedIsTransitive(p, m, VisitVaults(p, p.order, k, tx, point, network).value, tx, p.vaults, point, network);
    }
  }

  /** Why a Request is completed: refunded from escrow, or one of its Claims delivered. */
  ghost predicate Completes(
    r: RequestRecord, s: RequestRecord, k: OutRef, claims: map<OutRef, ClaimRecord>, tx: AcceptedTransaction, point: ChainPoint)
  {
    || (r.status == PendingEscrow && exists mode, index, completion ::
          IsRefundedBy(tx, k, index, mode, completion, point) && s == r.(status := Refunded, completion := Some(completion)))
    || exists c, entries, i, completion ::
         && c in claims && claims[c].request == k && IsDeliveredBy(tx, c, entries, i, completion, point)
         && s == r.(status := Delivered, completion := Some(completion))
  }

  ghost predicate Delivers(tx: AcceptedTransaction, ref: OutRef, point: ChainPoint) {
    exists entries, i, completion :: IsDeliveredBy(tx, ref, entries, i, completion, point)
  }

  /** What consuming inputs may do to the records, and that it spares no tracked input. */
  ghost predicate ConsumedWith(p: Projection, q: Projection, tx: AcceptedTransaction, point: ChainPoint) {
    && q == p.(requests := q.requests, claims := q.claims)
    && q.requests.Keys == p.requests.Keys && q.claims.Keys == p.claims.Keys && Keyed(q)
    && (forall k <- p.requests :: q.requests[k] == p.requests[k]
          || Completes(p.requests[k], q.requests[k], k, p.claims, tx, point))
    && forall c <- p.claims :: q.claims[c] == p.claims[c]
         || (Delivers(tx, c, point) && q.claims[c] == p.claims[c].(delivered := true))
  }

  lemma CompletesUnderSameClaims(
    r: RequestRecord, s: RequestRecord, k: OutRef, claims: map<OutRef, ClaimRecord>, later: map<OutRef, ClaimRecord>,
    tx: AcceptedTransaction, point: ChainPoint)
    requires Completes(r, s, k, later, tx, point)
    requires later.Keys == claims.Keys && forall c <- claims :: later[c].request == claims[c].request
    ensures Completes(r, s, k, claims, tx, point)
  {
    hide IsRefundedBy, IsDeliveredBy;
  }

  lemma CompletionsCompose(
    r: RequestRecord, m: RequestRecord, s: RequestRecord, k: OutRef, claims: map<OutRef, ClaimRecord>, tx: AcceptedTransaction,
    point: ChainPoint)
    requires Completes(r, m, k, claims, tx, point) && Completes(m, s, k, claims, tx, point)
    ensures Completes(r, s, k, claims, tx, point)
  {
    hide IsRefundedBy, IsDeliveredBy;
  }

  lemma ConsumedWithIsTransitive(p: Projection, m: Projection, q: Projection, tx: AcceptedTransaction, point: ChainPoint)
    requires ConsumedWith(p, m, tx, point) && ConsumedWith(m, q, tx, point)
    ensures ConsumedWith(p, q, tx, point)
  {
    hide Completes, Delivers;
    forall k <- p.requests
      ensures q.requests[k] == p.requests[k] || Completes(p.requests[k], q.requests[k], k, p.claims, tx, point)
    {
      if q.requests[k] != m.requests[k] {
        CompletesUnderSameClaims(m.requests[k], q.requests[k], k, p.claims, m.claims, tx, point);
        if m.requests[k] != p.requests[k] {
          CompletionsCompose(p.requests[k], m.requests[k], q.requests[k], k, p.claims, tx, point);
        }
      }
    }
  }

  lemma RefundIsConsumption(p: Projection, ref: OutRef, tx: AcceptedTransaction, point: ChainPoint)
    requires ref in tx.inputs && Keyed(p) && RefundConsumed(p, ref, tx, point).Ok?
    ensures
      var q := RefundConsumed(p, ref, tx, point).value;
      && ConsumedWith(p, q, tx, point) && q.claims == p.claims
      && (ref in p.requests ==> q.requests[ref].status != PendingEscrow)
  {
    hide RefundConsumed, IsRefundedBy, IsDeliveredBy, Delivers;
    RefundedMeans(p, ref, tx, point);
  }

  lemma DeliveryIsConsumption(p: Projection, ref: OutRef, tx: AcceptedTransaction, point: ChainPoint)
    requires ref in tx.inputs && Keyed(p) && DeliverConsumed(p, ref, tx, point).Ok?
    ensures
      var q := DeliverConsumed(p, ref, tx, point).value;
      && ConsumedWith(p, q, tx, point) && (ref in p.claims ==> q.claims[ref].delivered)
  {
    hide DeliverConsumed, IsRefundedBy, IsDeliveredBy;
    DeliveredMeans(p, ref, tx, point);
  }

  lemma ConsumeHasEvidence(p: Projection, ref: OutRef, tx: AcceptedTransaction, point: ChainPoint)
    requires ref in tx.inputs && Keyed(p) && Consume(p, ref, tx, point).Ok?
    ensures
      var q := Consume(p, ref, tx, point).value;
      && ConsumedWith(p, q, tx, point)
      && (ref in p.requests ==> q.requests[ref].status != PendingEscrow) && (ref in p.claims ==> q.claims[ref].delivered)
  {
    hide RefundConsumed, DeliverConsumed, Completes, Delivers;
    var m, q := RefundConsumed(p, ref, tx, point).value, Consume(p, ref, tx, point).value;
    RefundIsConsumption(p, ref, tx, point);
    DeliveryIsConsumption(m, ref, tx, point);
    StaysCompleted(m, q, tx, point);
    ConsumedWithIsTransitive(p, m, q, tx, point);
  }

  /** Every consumed input: a tracked one completes its Request as its redeemer says, and none is left pending or undelivered. */
  lemma {:induction false} ConsumptionHasEvidence(p: Projection, k: nat, tx: AcceptedTransaction, point: ChainPoint)
    requires k <= |tx.inputs| && Keyed(p) && ConsumeInputs(p, k, tx, point).Ok?
    ensures
      var q := ConsumeInputs(p, k, tx, point).value;
      && ConsumedWith(p, q, tx, point)
      && (forall i :: 0 <= i < k && tx.inputs[i] in p.requests ==> q.requests[tx.inputs[i]].status != PendingEscrow)
      && forall i :: 0 <= i < k && tx.inputs[i] in p.claims ==> q.claims[tx.inputs[i]].delivered
  {
    hide Consume, Completes, Delivers;
    if k > 0 {
      var m, q := ConsumeInputs(p, k - 1, tx, point).value, ConsumeInputs(p, k, tx, point).value;
      ConsumptionHasEvidence(p, k - 1, tx, point);
      ConsumeHasEvidence(m, tx.inputs[k - 1], tx, point);
      StaysCompleted(m, q, tx, point);
      ConsumedWithIsTransitive(p, m, q, tx, point);
    }
  }

  lemma StaysCompleted(p: Projection, q: Projection, tx: AcceptedTransaction, point: ChainPoint)
    requires ConsumedWith(p, q, tx, point)
    ensures forall k <- p.requests :: p.requests[k].status != PendingEscrow ==> q.requests[k].status != PendingEscrow
    ensures forall c <- p.claims :: p.claims[c].delivered ==> q.claims[c].delivered
  {
    hide IsRefundedBy, IsDeliveredBy, Delivers;
  }

  /** The custody of a Config: its reserve and the vault's one ID token. */
  ghost predicate HoldsConfig(v: Value, reserve: int, policy: Hex) {
    IsCanonical(v) && forall a :: Qty(v, a) == When(a == Ada, reserve) + When(a == Native(policy, "4944"), 1)
  }

  lemma ConfigHolding(v: Value, reserve: int, policy: Hex)
    requires Qty(v, OwnAsset(policy, IdToken)) == 1 && 1 <= reserve
    requires AssertSameValue(v, map[Ada := reserve, OwnAsset(policy, IdToken) := 1]).Pass?
    ensures HoldsConfig(v, reserve, policy)
  {
    hide TokenHex, IsAsset, IsNamed, Lower;
    TokenNamesAreSpelled();
    CanonicalMeans(v);
    var id := OwnAsset(policy, IdToken);
    var expected := map[Ada := reserve, id := 1];
    assert id in v && IsAsset(id) && AssetId(id) == id;
    assert Qty(ActualValue(v).value, Ada) == reserve;
    AdaIsAsset();
    assert IsCustody(expected);
    SameValueIsExact(v, expected);
  }

  lemma AdaIsAsset()
    ensures IsAsset(Ada) && AssetId(Ada) == Ada
  {
  }

  lemma {:induction false} CandidatesMean(outputs: seq<LedgerOutput>, policy: Hex)
    ensures forall o :: o in StateCandidates(outputs, policy) <==> o in outputs && Qty(o.content.value, Native(policy, "5354415445")) == 1
  {
    hide TokenHex, Qty;
    TokenNamesAreSpelled();
    if outputs != [] {
      CandidatesMean(outputs[1..], policy);
      assert outputs == [outputs[0]] + outputs[1..];
    }
  }

  /** A new vault's State: the one output with its STATE token, empty accounts, nothing paused, exact custody. */
  ghost predicate IsFirstState(s: LedgerOutput, tx: AcceptedTransaction, config: Config, policy: Hex, network: NetworkBinding) {
    && s in tx.outputs && IsAtScript(s, policy, network)
    && (forall o <- tx.outputs :: Qty(o.content.value, Native(policy, "5354415445")) == 1 <==> o == s)
    && s.content.datum.value.StateDatum?
    && var state := s.content.datum.value.state;
       && state == State(policy, config.termsHash, 0, 0, 0, 0, state.storageLovelace, 0)
       && HoldsStateExactly(s.content.value, state, config.terms)
  }

  lemma InitialStateMeans(tx: AcceptedTransaction, config: Config, policy: Hex, network: NetworkBinding) returns (s: LedgerOutput)
    requires InitialState(tx, config, policy, network.networkId).Ok?
    ensures IsFirstState(s, tx, config, policy, network)
    ensures InitialState(tx, config, policy, network.networkId)
         == Ok(ProtectedInput(s.ref, Address(Credential(Script, policy), None), s.content.datum.value, s.content.value))
  {
    hide StateValue, AssertSameValue, HoldsStateExactly, IsAtScript, ProtectedOutput, TokenHex, Qty;
    CandidatesMean(tx.outputs, policy);
    s := StateCandidates(tx.outputs, policy)[0];
    assert StateCandidates(tx.outputs, policy) == [s];
    AtScriptMeans(s, policy, network);
    StateExactlyMeans(s.content.value, s.content.datum.value.state, config.terms);
  }

  /**
   * What a vault's discovery rests on: a Config output at the build's lock that names the policy of the build's script at
   * this seed and Terms, the seed spent, the one first State, and a consistent deployment; and the record made of them.
   */
  ghost predicate IsGenesis(
    vault: VaultRecord, tx: AcceptedTransaction, o: LedgerOutput, s: LedgerOutput, build: ReviewedBuild, point: ChainPoint,
    network: NetworkBinding)
  {
    && o in tx.outputs && IsAtScript(o, build.configLock, network) && o.content.datum.value.ConfigDatum?
    && var config := o.content.datum.value.config;
       var policy := build.template(config.seed, config.termsHash);
       && config.vaultPolicy == policy && config.terms.networkDomain == network.domain && config.seed in tx.inputs
       && Qty(o.content.value, Native(policy, "4944")) == 1
       && (1 <= config.storageLovelace ==> HoldsConfig(o.content.value, config.storageLovelace, policy))
       && IsFirstState(s, tx, config, policy, network)
       && vault == VaultRecord(
            Deployment(
              build.family, network.name, network.domain, policy, build.configLock,
              if build.family == Ctvs1 then None else build.claimScript, config.termsHash, o.ref, build.buildId, point),
            config.terms, tx.id, point,
            ProtectedInput(s.ref, Address(Credential(Script, policy), None), s.content.datum.value, s.content.value))
       && IsDeployed(Context(vault.deployment, vault.terms, config.termsHash), build.family)
  }

  lemma AuthenticIsGenesis(
    tx: AcceptedTransaction, o: LedgerOutput, config: Config, build: ReviewedBuild, point: ChainPoint, network: NetworkBinding)
    returns (s: LedgerOutput)
    requires o in tx.outputs && o.content.datum == Some(ConfigDatum(config)) && config.terms.networkDomain == network.domain
    requires AuthenticateGenesis(tx, o, config, build, point, network).Ok?
    requires AuthenticateGenesis(tx, o, config, build, point, network).value.Some?
    ensures IsGenesis(AuthenticateGenesis(tx, o, config, build, point, network).value.value, tx, o, s, build, point, network)
  {
    hide InitialState, AssertSameValue, ConsistentContext, IsDeployed, HoldsConfig, IsAtScript, ProtectedOutput, Qty, IsFirstState, TokenHex;
    var policy := build.template(config.seed, config.termsHash);
    TokenNamesAreSpelled();
    s := InitialStateMeans(tx, config, policy, network);
    AtScriptMeans(o, build.configLock, network);
    if 1 <= config.storageLovelace {
      ConfigHolding(o.content.value, config.storageLovelace, policy);
    }
    var vault := AuthenticateGenesis(tx, o, config, build, point, network).value.value;
    DeployedMeans(Context(vault.deployment, vault.terms, config.termsHash), build.family);
  }

  /** A vault of this transaction under one of the reviewed builds. */
  ghost predicate IsBorn(vault: VaultRecord, tx: AcceptedTransaction, builds: seq<ReviewedBuild>, point: ChainPoint, network: NetworkBinding) {
    exists o, s, b :: 0 <= b < |builds| && IsGenesis(vault, tx, o, s, builds[b], point, network)
  }

  lemma {:induction false} MatchIsGenesis(
    tx: AcceptedTransaction, o: LedgerOutput, config: Config, builds: seq<ReviewedBuild>, k: nat, point: ChainPoint, network: NetworkBinding)
    requires o in tx.outputs && o.content.datum == Some(ConfigDatum(config)) && config.terms.networkDomain == network.domain
    requires k <= |builds| && MatchBuild(tx, o, config, builds[k..], point, network).Ok?
    requires MatchBuild(tx, o, config, builds[k..], point, network).value.Some?
    ensures IsBorn(MatchBuild(tx, o, config, builds[k..], point, network).value.value, tx, builds, point, network)
    decreases |builds| - k
  {
    hide AuthenticateGenesis, IsGenesis;
    if k < |builds| {
      assert builds[k..][0] == builds[k] && builds[k..][1..] == builds[k + 1..];
      var vault := AuthenticateGenesis(tx, o, config, builds[k], point, network).value;
      if vault.Some? {
        var s := AuthenticIsGenesis(tx, o, config, builds[k], point, network);
      } else {
        MatchIsGenesis(tx, o, config, builds, k + 1, point, network);
      }
    }
  }

  /** Every discovered vault is born in this transaction. */
  lemma {:induction false} DiscoveredAreBorn(
    tx: AcceptedTransaction, k: nat, builds: seq<ReviewedBuild>, point: ChainPoint, network: NetworkBinding)
    requires k <= |tx.outputs| && Discovered(tx, k, builds, point, network).Ok?
    ensures forall vault <- Discovered(tx, k, builds, point, network).value :: IsBorn(vault, tx, builds, point, network)
  {
    hide MatchBuild, IsBorn;
    if k > 0 {
      DiscoveredAreBorn(tx, k - 1, builds, point, network);
      var vault, o := DiscoverAt(tx, tx.outputs[k - 1], builds, point, network).value, tx.outputs[k - 1];
      if vault.Some? {
        assert builds[0..] == builds;
        MatchIsGenesis(tx, o, o.content.datum.value.config, builds, 0, point, network);
      }
    }
  }

  predicate IsSelected(policy: Hex, selected: Option<set<Hex>>) {
    selected == None || policy in selected.value
  }

  ghost predicate AddedBy(vault: VaultRecord, policy: Hex, vaults: seq<VaultRecord>, selected: Option<set<Hex>>) {
    vault in vaults && vault.deployment.policy == policy && IsSelected(policy, selected)
  }

  /** One vault added: only under its own new policy, and only if it is selected. */
  lemma AddedOnce(p: Projection, vault: VaultRecord, selected: Option<set<Hex>>)
    requires AddVault(p, vault, selected).Ok?
    ensures
      var q, policy := AddVault(p, vault, selected).value, vault.deployment.policy;
      if IsSelected(policy, selected) then
        policy !in p.vaults && q == p.(vaults := p.vaults[policy := vault], order := p.order + [policy])
      else q == p
  {
  }

  /** Adding vaults: the selected ones, each under its own new policy, in order, and nothing else. */
  lemma {:induction false} AddedAreSelected(p: Projection, vaults: seq<VaultRecord>, k: nat, selected: Option<set<Hex>>)
    requires k <= |vaults| && AddVaults(p, vaults, k, selected).Ok?
    ensures
      var q := AddVaults(p, vaults, k, selected).value;
      && q == p.(vaults := q.vaults, order := q.order)
      && (forall policy <- p.vaults :: policy in q.vaults && q.vaults[policy] == p.vaults[policy])
      && (forall policy <- q.vaults :: policy in p.vaults || AddedBy(q.vaults[policy], policy, vaults, selected))
      && (forall i :: 0 <= i < k && IsSelected(vaults[i].deployment.policy, selected) ==>
            && vaults[i].deployment.policy !in p.vaults
            && vaults[i].deployment.policy in q.vaults && q.vaults[vaults[i].deployment.policy] == vaults[i])
  {
    hide AddVault, IsSelected;
    if k > 0 {
      AddedAreSelected(p, vaults, k - 1, selected);
      AddedOnce(AddVaults(p, vaults, k - 1, selected).value, vaults[k - 1], selected);
    }
  }

  lemma {:induction false} AddingKeepsVaults(p: Projection, k: nat, tx: AcceptedTransaction, point: ChainPoint, network: NetworkBinding)
    requires k <= |tx.outputs|
    ensures
      var q := AddOutputs(p, k, tx, point, network);
      q == p.(utxos := q.utxos, requests := q.requests)
  {
    hide Recognize;
    if k > 0 {
      AddingKeepsVaults(p, k - 1, tx, point, network);
    }
  }

  lemma {:induction false} AddingSparesOthers(
    p: Projection, k: nat, tx: AcceptedTransaction, point: ChainPoint, network: NetworkBinding, ref: OutRef)
    requires k <= |tx.outputs| && forall i :: 0 <= i < k ==> tx.outputs[i].ref != ref
    ensures
      var q := AddOutputs(p, k, tx, point, network);
      && (ref in q.utxos <==> ref in p.utxos) && (ref in p.utxos ==> q.utxos[ref] == p.utxos[ref])
      && (ref in q.requests <==> ref in p.requests) && (ref in p.requests ==> q.requests[ref] == p.requests[ref])
  {
    hide Recognize;
    if k > 0 {
      AddingSparesOthers(p, k - 1, tx, point, network, ref);
    }
  }

  lemma {:induction false} AddingAddsOutput(
    p: Projection, k: nat, tx: AcceptedTransaction, point: ChainPoint, network: NetworkBinding, i: nat)
    requires i < k <= |tx.outputs| && forall j :: i < j < |tx.outputs| ==> tx.outputs[j].ref != tx.outputs[i].ref
    ensures
      var q := AddOutputs(p, k, tx, point, network);
      tx.outputs[i].ref in q.utxos && q.utxos[tx.outputs[i].ref] == tx.outputs[i]
  {
    hide Recognize;
    if i < k - 1 {
      AddingAddsOutput(p, k - 1, tx, point, network, i);
    }
  }

  /** The effect of a transaction on the unspent outputs and the seen identities. */
  ghost predicate Spends(p: Projection, q: Projection, tx: AcceptedTransaction) {
    && q.transactions == p.transactions + {tx.id} && tx.id !in p.transactions
    && (forall i :: 0 <= i < |tx.outputs| ==> tx.outputs[i].ref in q.utxos && q.utxos[tx.outputs[i].ref] == tx.outputs[i])
    && forall ref :: (forall i :: 0 <= i < |tx.outputs| ==> tx.outputs[i].ref != ref) ==>
         && (ref in q.utxos <==> ref in p.utxos && ref !in tx.inputs) && (ref in q.utxos ==> q.utxos[ref] == p.utxos[ref])
  }

  /** The effect on the vaults: each moves by its own State input, and the selected new ones are added. */
  ghost predicate VaultsFollow(
    p: Projection, q: Projection, tx: AcceptedTransaction, point: ChainPoint, network: NetworkBinding, builds: seq<ReviewedBuild>,
    selected: Option<set<Hex>>)
  {
    && (forall policy <- p.vaults :: policy in q.vaults && Moves(p.vaults[policy], q.vaults[policy], tx, point, network))
    && forall policy <- q.vaults :: policy in p.vaults
         || (IsBorn(q.vaults[policy], tx, builds, point, network) && q.vaults[policy].deployment.policy == policy
             && IsSelected(policy, selected))
  }

  lemma UtxosAreSpent(p: Projection, acted: Projection, tx: AcceptedTransaction, point: ChainPoint, network: NetworkBinding)
    requires acted.utxos == p.utxos && acted.transactions == p.transactions + {tx.id} && tx.id !in p.transactions
    requires forall i, j :: 0 <= i < j < |tx.outputs| ==> tx.outputs[i].ref != tx.outputs[j].ref
    ensures Spends(p, ProjectUtxos(acted, tx, point, network), tx)
  {
    hide AddOutputs;
    var start, q := acted.(utxos := acted.utxos - InputSet(tx)), ProjectUtxos(acted, tx, point, network);
    AddingKeepsVaults(start, |tx.outputs|, tx, point, network);
    forall i | 0 <= i < |tx.outputs| ensures tx.outputs[i].ref in q.utxos && q.utxos[tx.outputs[i].ref] == tx.outputs[i] {
      AddingAddsOutput(start, |tx.outputs|, tx, point, network, i);
    }
    forall ref | forall i :: 0 <= i < |tx.outputs| ==> tx.outputs[i].ref != ref
      ensures (ref in q.utxos <==> ref in p.utxos && ref !in tx.inputs) && (ref in q.utxos ==> q.utxos[ref] == p.utxos[ref])
    {
      AddingSparesOthers(start, |tx.outputs|, tx, point, network, ref);
    }
  }

  lemma RecordsAreSpared(acted: Projection, tx: AcceptedTransaction, point: ChainPoint, network: NetworkBinding)
    requires forall i :: 0 <= i < |tx.outputs| ==> tx.outputs[i].ref !in acted.requests
    ensures
      var q := ProjectUtxos(acted, tx, point, network);
      && q.vaults == acted.vaults && q.order == acted.order && q.claims == acted.claims
      && forall k <- acted.requests :: k in q.requests && q.requests[k] == acted.requests[k]
  {
    hide AddOutputs;
    var start, q := acted.(utxos := acted.utxos - InputSet(tx)), ProjectUtxos(acted, tx, point, network);
    AddingKeepsVaults(start, |tx.outputs|, tx, point, network);
    forall k <- acted.requests ensures k in q.requests && q.requests[k] == acted.requests[k] {
      AddingSparesOthers(start, |tx.outputs|, tx, point, network, k);
    }
  }

  /** The records after a valid transaction, from those after its vaults were visited. */
  ghost predicate CompletedWith(m: Projection, q: Projection, tx: AcceptedTransaction, point: ChainPoint) {
    && q.claims.Keys == m.claims.Keys
    && (forall k <- m.requests ::
          && k in q.requests && (q.requests[k] == m.requests[k] || Completes(m.requests[k], q.requests[k], k, m.claims, tx, point))
          && (k in tx.inputs ==> q.requests[k].status != PendingEscrow))
    && forall c <- m.claims ::
         && (q.claims[c] == m.claims[c] || (Delivers(tx, c, point) && q.claims[c] == m.claims[c].(delivered := true)))
         && (c in tx.inputs ==> q.claims[c].delivered)
  }

  lemma ActionsHaveEvidence(
    p: Projection, tx: AcceptedTransaction, point: ChainPoint, network: NetworkBinding, builds: seq<ReviewedBuild>,
    selected: Option<set<Hex>>) returns (m: Projection)
    requires OrderFits(p) && Keyed(p) && tx.valid && ProjectActions(p, tx, point, network, builds, selected).Ok?
    ensures
      var q := ProjectActions(p, tx, point, network, builds, selected).value;
      && VaultsFollow(p, q, tx, point, network, builds, selected) && VisitedWith(p, m, tx, p.vaults, point, network)
      && CompletedWith(m, q, tx, point) && q.requests.Keys == p.requests.Keys
      && q.utxos == p.utxos && q.transactions == p.transactions
  {
    hide VisitVaults, ConsumeInputs, AddVaults, IsBorn, Moves, IsSettlement, IsNewClaim, Completes, Delivers, OrderFits;
    m := VisitVaults(p, p.order, |p.order|, tx, point, network).value;
    VisitsHaveEvidence(p, |p.order|, tx, point, network);
    AllMove(p, m, tx, point, network);
    var consumed := ConsumeInputs(m, |tx.inputs|, tx, point).value;
    ConsumptionHasEvidence(m, |tx.inputs|, tx, point);
    forall k | k in tx.inputs
      ensures k in m.requests ==> consumed.requests[k].status != PendingEscrow
      ensures k in m.claims ==> consumed.claims[k].delivered
    {
      var i :| 0 <= i < |tx.inputs| && tx.inputs[i] == k;
    }
    var discovered := DiscoverGenesis(tx, builds, point, network).value;
    DiscoveredAreBorn(tx, |tx.outputs|, builds, point, network);
    AddedAreSelected(consumed, discovered, |discovered|, selected);
  }

  /**
   * Nothing changes without evidence. In a valid accepted transaction Requests settle only by a batch that spends a vault's
   * State and allocates them an exact Claim (the projection m in between), then complete only by a refund or a delivery
   * whose redeemer names the output recorded; every tracked input is completed; vaults move only to the successor their
   * State input designates, or are born of an authentic genesis. A failed transaction changes no record and no vault.
   */
  lemma EveryChangeHasEvidence(
    p: Projection, tx: AcceptedTransaction, point: ChainPoint, network: NetworkBinding, builds: seq<ReviewedBuild>,
    selected: Option<set<Hex>>) returns (m: Projection)
    requires OrderFits(p) && Keyed(p) && ProjectTransaction(p, tx, point, network, builds, selected).Ok?
    requires forall i, j :: 0 <= i < j < |tx.outputs| ==> tx.outputs[i].ref != tx.outputs[j].ref
    requires forall i :: 0 <= i < |tx.outputs| ==> tx.outputs[i].ref !in p.requests
    ensures
      var q := ProjectTransaction(p, tx, point, network, builds, selected).value;
      && Spends(p, q, tx)
      && (tx.valid ==>
            && VaultsFollow(p, q, tx, point, network, builds, selected)
            && VisitedWith(p.(transactions := p.transactions + {tx.id}), m, tx, p.vaults, point, network)
            && CompletedWith(m, q, tx, point))
      && (!tx.valid ==>
            && q.vaults == p.vaults && q.order == p.order && q.claims == p.claims
            && forall k <- p.requests :: k in q.requests && q.requests[k] == p.requests[k])
  {
    hide VisitVaults, ConsumeInputs, AddVaults, AddOutputs, IsBorn, Moves, IsSettlement, IsNewClaim, Completes, Delivers, Spends,
      DiscoverGenesis, ProjectUtxos;
    var seen := p.(transactions := p.transactions + {tx.id});
    var acted := ProjectActions(seen, tx, point, network, builds, selected).value;
    m := seen;
    if tx.valid {
      m := ActionsHaveEvidence(seen, tx, point, network, builds, selected);
    }
    UtxosAreSpent(p, acted, tx, point, network);
    RecordsAreSpared(acted, tx, point, network);
  }

  lemma AllMove(p: Projection, m: Projection, tx: AcceptedTransaction, point: ChainPoint, network: NetworkBinding)
    requires OrderFits(p) && m.vaults.Keys == p.vaults.Keys
    requires forall i :: 0 <= i < |p.order| ==> Moves(p.vaults[p.order[i]], m.vaults[p.order[i]], tx, point, network)
    ensures forall policy <- p.vaults :: Moves(p.vaults[policy], m.vaults[policy], tx, point, network)
  {
    hide Moves;
    forall policy <- p.vaults ensures Moves(p.vaults[policy], m.vaults[policy], tx, point, network) {
      var i :| 0 <= i < |p.order| && p.order[i] == policy;
    }
  }
}
