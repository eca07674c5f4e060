/** Projects one accepted transaction into a staging copy: State transitions, settlements, completions, genesis, outputs. */
module Projecting {
  import opened Results
  import opened Types
  import opened Values
  import opened References
  import opened Planning
  import opened AcceptedTransactions
  import opened Projections

  /** The action attached to a tracked input; missing, malformed or foreign-role evidence is an error. */
  function ActionOf(tx: AcceptedTransaction, ref: OutRef): Result<Redeemer> {
    if ref in tx.spends && tx.spends[ref].Some? then Ok(tx.spends[ref].value) else Err(InvalidShape)
  }

  /** Install one batch allocation while the vault still points at the consumed State. */
  function RecordSettlement(
    p: Projection, vault: VaultRecord, tx: AcceptedTransaction, entry: SettleEntry, point: ChainPoint, network: NetworkBinding
  ): Result<Projection> {
    var key := RefId(entry.requestRef);
    :- Need(key in p.requests && p.requests[key].status.PendingEscrow? && key in tx.inputs, MissingLineage);
    var request := p.requests[key];
    var found := FindOutput(tx.outputs, entry.claimOutput);
    :- Need(found.Some? && vault.deployment.claimScript.Some?, MissingOutput);
    var source := found.value;
    var protected :- ProtectedOutput(source, vault.deployment.claimScript.value, network.networkId);
    :- Need(protected.datum.ClaimDatum?, InvalidShape);
    var claim := protected.datum.claim;
    :- Need(
      && claim.vaultPolicy == vault.deployment.policy && claim.termsHash == vault.deployment.termsHash
      && RefId(claim.requestRef) == request.ref && RefId(claim.stateRef) == vault.state.ref, MissingLineage);
    var owed :- ClaimValue(claim);
    :- AssertSameValue(source.content.value, owed);
    Ok(p.(
      requests := p.requests[key := request.(
        status := Claimable,
        settlement := Some(SettlementRecord(tx.id, vault.state.ref, source.ref, point)))],
      claims := p.claims[source.ref := ClaimRecord(source.ref, claim, source, request.ref, false)]))
  }

  function RecordSettlements(
    p: Projection, vault: VaultRecord, tx: AcceptedTransaction, entries: seq<SettleEntry>, k: nat, point: ChainPoint, network: NetworkBinding
  ): Result<Projection>
    requires k <= |entries|
  {
    if k == 0 then Ok(p)
    else
      var q :- RecordSettlements(p, vault, tx, entries, k - 1, point, network);
      RecordSettlement(q, vault, tx, entries[k - 1], point, network)
  }

  /** The State that the consumed State's redeemer designates: next in sequence, same identity, exact custody. */
  function SuccessorState(vault: VaultRecord, tx: AcceptedTransaction, action: StateRedeemer, network: NetworkBinding): Result<ProtectedInput> {
    var previous := vault.state.datum;
    :- Need(previous.StateDatum?, InvalidShape);
    var found := FindOutput(tx.outputs, action.stateOutput);
    :- Need(found.Some?, MissingOutput);
    var state :- ProtectedOutput(found.value, vault.deployment.policy, network.networkId);
    :- Need(state.datum.StateDatum?, InvalidShape);
    var before, after := previous.state, state.datum.state;
    :- Need(
      && after.sequence == before.sequence + 1 && after.vaultPolicy == before.vaultPolicy
      && after.termsHash == before.termsHash, BrokenContinuity);
    var custody :- StateValue(after, vault.terms);
    :- AssertSameValue(state.value, custody);
    Ok(state)
  }

  function AdvanceState(p: Projection, policy: Hex, tx: AcceptedTransaction, point: ChainPoint, network: NetworkBinding): Result<Projection>
    requires policy in p.vaults
  {
    var vault := p.vaults[policy];
    var redeemer :- ActionOf(tx, vault.state.ref);
    :- Need(redeemer.StateAction?, InvalidShape);
    var state :- SuccessorState(vault, tx, redeemer.state, network);
    var settled :-
      if redeemer.state.Batch?
      then RecordSettlements(p, vault, tx, redeemer.state.entries, |redeemer.state.entries|, point, network)
      else Ok(p);
    Ok(settled.(vaults := p.vaults[policy :=
      vault.(state := state, deployment := vault.deployment.(chainPoint := point))]))
  }

  /** One vault's part in a valid transaction: its Config is immutable, and its consumed State advances. */
  function VisitVault(p: Projection, policy: Hex, tx: AcceptedTransaction, point: ChainPoint, network: NetworkBinding): Result<Projection> {
    if policy !in p.vaults then Ok(p)
    else if p.vaults[policy].deployment.configRef in tx.inputs then Err(Unauthorized)
    else if p.vaults[policy].state.ref in tx.inputs then AdvanceState(p, policy, tx, point, network)
    else Ok(p)
  }

  function VisitVaults(p: Projection, order: seq<Hex>, k: nat, tx: AcceptedTransaction, point: ChainPoint, network: NetworkBinding)
    : Result<Projection>
    requires k <= |order|
  {
    if k == 0 then Ok(p)
    else
      var q :- VisitVaults(p, order, k - 1, tx, point, network);
      VisitVault(q, order[k - 1], tx, point, network)
  }

  /** A pending Request that was not settled is a refund; an acknowledgment left over is an error. */
  function RefundConsumed(p: Projection, ref: OutRef, tx: AcceptedTransaction, point: ChainPoint): Result<Projection> {
    if ref !in p.requests || !p.requests[ref].status.PendingEscrow? then Ok(p)
    else
      var redeemer :- ActionOf(tx, ref);
      :- Need(redeemer.RequestAction? && redeemer.request.Refund?, MissingLineage);
      var refund := FindOutput(tx.outputs, redeemer.request.refundOutput);
      :- Need(refund.Some?, MissingOutput);
      Ok(p.(requests := p.requests[ref := p.requests[ref].(
        status := Refunded, completion := Some(CompletionRecord(tx.id, refund.value.ref, point)))]))
  }

  function ReceiverIndex(entries: seq<DeliverEntry>, ref: OutRef): Option<int> {
    if entries == [] then None
    else if RefId(entries[0].claimRef) == ref then Some(entries[0].receiverOutput)
    else ReceiverIndex(entries[1..], ref)
  }

  /** A tracked Claim that is spent is delivered to the output its redeemer allocates. */
  function DeliverConsumed(p: Projection, ref: OutRef, tx: AcceptedTransaction, point: ChainPoint): Result<Projection> {
    if ref !in p.claims then Ok(p)
    else
      var tracked := p.claims[ref];
      var redeemer :- ActionOf(tx, ref);
      :- Need(redeemer.ClaimAction?, InvalidShape);
      var index := ReceiverIndex(redeemer.claim.deliveries, ref);
      var delivery := if index.None? then None else FindOutput(tx.outputs, index.value);
      :- Need(delivery.Some?, MissingOutput);
      :- Need(tracked.request in p.requests, MissingLineage);
      Ok(p.(
        requests := p.requests[tracked.request := p.requests[tracked.request].(
          status := Delivered, completion := Some(CompletionRecord(tx.id, delivery.value.ref, point)))],
        claims := p.claims[ref := tracked.(delivered := true)]))
  }

  function Consume(p: Projection, ref: OutRef, tx: AcceptedTransaction, point: ChainPoint): Result<Projection> {
    var q :- RefundConsumed(p, ref, tx, point);
    DeliverConsumed(q, ref, tx, point)
  }

  function ConsumeInputs(p: Projection, k: nat, tx: AcceptedTransaction, point: ChainPoint): Result<Projection>
    requires k <= |tx.inputs|
  {
    if k == 0 then Ok(p)
    else
      var q :- ConsumeInputs(p, k - 1, tx, point);
      Consume(q, tx.inputs[k - 1], tx, point)
  }

  function AddVault(p: Projection, vault: VaultRecord, selected: Option<set<Hex>>): Result<Projection> {
    var policy := vault.deployment.policy;
    if selected.Some? && policy !in selected.value then Ok(p)
    else if policy in p.vaults then Err(DuplicateReference)
    else Ok(p.(vaults := p.vaults[policy := vault], order := p.order + [policy]))
  }

  function AddVaults(p: Projection, vaults: seq<VaultRecord>, k: nat, selected: Option<set<Hex>>): Result<Projection>
    requires k <= |vaults|
  {
    if k == 0 then Ok(p)
    else
      var q :- AddVaults(p, vaults, k - 1, selected);
      AddVault(q, vaults[k - 1], selected)
  }

  /** The Recovery of a recognized envelope, whatever its economics. */
  function EnvelopeRecovery(datum: Datum): Option<Recovery> {
    match datum
    case RequestDatum(request) => Some(request.recovery)
    case RecoveryDatum(recovery, _) => Some(recovery)
    case _ => None
  }

  /** The Request record of an output at a known request-path vault; State custody is never escrow. */
  function Recognize(p: Projection, source: LedgerOutput, point: ChainPoint, network: NetworkBinding): Option<RequestRecord> {
    var payment := source.content.address.payment;
    if source.content.datum.None? || payment.None? || !payment.value.kind.Script? then None
    else
      var hash := payment.value.hash;
      if hash !in p.vaults || !p.vaults[hash].deployment.family.Ctvs2? then None
      else if Qty(source.content.value, OwnAsset(hash, StateToken)) != 0 then None
      else if !IsProtected(source, hash, network.networkId) then None
      else
        var datum := source.content.datum.value;
        var recovery := EnvelopeRecovery(datum);
        if recovery.None? || recovery.value.vaultPolicy != hash then None
        else
          Some(RequestRecord(
            source.ref, hash, recovery.value, if datum.RequestDatum? then Some(datum.request) else None,
            source, point, PendingEscrow, None, None))
  }

  function AddOutput(p: Projection, source: LedgerOutput, point: ChainPoint, network: NetworkBinding): Projection {
    var record := Recognize(p, source, point, network);
    var q := p.(utxos := p.utxos[source.ref := source]);
    if record.None? then q else q.(requests := q.requests[source.ref := record.value])
  }

  function AddOutputs(p: Projection, k: nat, tx: AcceptedTransaction, point: ChainPoint, network: NetworkBinding): Projection
    requires k <= |tx.outputs|
  {
    if k == 0 then p else AddOutput(AddOutputs(p, k - 1, tx, point, network), tx.outputs[k - 1], point, network)
  }

  function InputSet(tx: AcceptedTransaction): set<OutRef> {
    set ref | ref in tx.inputs
  }

  function ProjectUtxos(p: Projection, tx: AcceptedTransaction, point: ChainPoint, network: NetworkBinding): Projection {
    AddOutputs(p.(utxos := p.utxos - InputSet(tx)), |tx.outputs|, tx, point, network)
  }

  /** Everything a transaction does before its outputs are added. */
  function ProjectActions(
    p: Projection, tx: AcceptedTransaction, point: ChainPoint, network: NetworkBinding, builds: seq<ReviewedBuild>, selected: Option<set<Hex>>
  ): Result<Projection> {
    if !tx.valid then Ok(p)
    else
      var advanced :- VisitVaults(p, p.order, |p.order|, tx, point, network);
      var consumed :- ConsumeInputs(advanced, |tx.inputs|, tx, point);
      var discovered :- DiscoverGenesis(tx, builds, point, network);
      AddVaults(consumed, discovered, |discovered|, selected)
  }

  function ProjectTransaction(
    p: Projection, tx: AcceptedTransaction, point: ChainPoint, network: NetworkBinding, builds: seq<ReviewedBuild>, selected: Option<set<Hex>>
  ): Result<Projection> {
    var seen := p.(transactions := p.transactions + {tx.id});
    :- Need(tx.id !in p.transactions, DuplicateReference);
    var acted :- ProjectActions(seen, tx, point, network, builds, selected);
    Ok(ProjectUtxos(acted, tx, point, network))
  }

  lemma {:induction false} SettlementsFailEarly(
    p: Projection, vault: VaultRecord, tx: AcceptedTransaction, entries: seq<SettleEntry>, k: nat, n: nat, point: ChainPoint, network: NetworkBinding)
    requires k <= n <= |entries| && RecordSettlements(p, vault, tx, entries, k, point, network).Err?
    ensures RecordSettlements(p, vault, tx, entries, n, point, network) == RecordSettlements(p, vault, tx, entries, k, point, network)
  {
    hide RecordSettlement;
    if k < n {
      SettlementsFailEarly(p, vault, tx, entries, k, n - 1, point, network);
    }
  }

  lemma {:induction false} VisitsFailEarly(
    p: Projection, order: seq<Hex>, k: nat, n: nat, tx: AcceptedTransaction, point: ChainPoint, network: NetworkBinding)
    requires k <= n <= |order| && VisitVaults(p, order, k, tx, point, network).Err?
    ensures VisitVaults(p, order, n, tx, point, network) == VisitVaults(p, order, k, tx, point, network)
  {
    hide VisitVault;
    if k < n {
      VisitsFailEarly(p, order, k, n - 1, tx, point, network);
    }
  }

  lemma {:induction false} ConsumptionFailsEarly(p: Projection, k: nat, n: nat, tx: AcceptedTransaction, point: ChainPoint)
    requires k <= n <= |tx.inputs| && ConsumeInputs(p, k, tx, point).Err?
    ensures ConsumeInputs(p, n, tx, point) == ConsumeInputs(p, k, tx, point)
  {
    hide Consume;
    if k < n {
      ConsumptionFailsEarly(p, k, n - 1, tx, point);
    }
  }

  lemma {:induction false} AdditionsFailEarly(p: Projection, vaults: seq<VaultRecord>, k: nat, n: nat, selected: Option<set<Hex>>)
    requires k <= n <= |vaults| && AddVaults(p, vaults, k, selected).Err?
    ensures AddVaults(p, vaults, n, selected) == AddVaults(p, vaults, k, selected)
  {
    hide AddVault;
    if k < n {
      AdditionsFailEarly(p, vaults, k, n - 1, selected);
    }
  }

  /**
   * The mutable staging copy of a projection. A method that fails may leave partial work behind, and its caller
   * discards the copy.
   */
  class Staging {
    var vaults: map<Hex, VaultRecord>
    var order: seq<Hex>
    var requests: map<OutRef, RequestRecord>
    var claims: map<OutRef, ClaimRecord>
    var utxos: map<OutRef, LedgerOutput>
    var transactions: set<Hex>

    function View(): Projection
      reads this
    {
      Projection(vaults, order, requests, claims, utxos, transactions)
    }

    constructor (p: Projection)
      ensures View() == p
    {
      vaults, order, requests, claims := p.vaults, p.order, p.requests, p.claims;
      utxos, transactions := p.utxos, p.transactions;
    }

    method Record(vault: VaultRecord, tx: AcceptedTransaction, entry: SettleEntry, point: ChainPoint, network: NetworkBinding)
      returns (done: Outcome)
      modifies this
      ensures done.Pass? <==> RecordSettlement(old(View()), vault, tx, entry, point, network).Ok?
      ensures done.Fail? ==> RecordSettlement(old(View()), vault, tx, entry, point, network) == Err(done.error)
      ensures done.Pass? ==> Ok(View()) == RecordSettlement(old(View()), vault, tx, entry, point, network)
    {
      var key := RefId(entry.requestRef);
      if key !in requests || !requests[key].status.PendingEscrow? || key !in tx.inputs {
        return Fail(MissingLineage);
      }
      var request := requests[key];
      var found := FindOutput(tx.outputs, entry.claimOutput);
      if found.None? || vault.deployment.claimScript.None? {
        return Fail(MissingOutput);
      }
      var source := found.value;
      var protected := ProtectedOutput(source, vault.deployment.claimScript.value, network.networkId);
      if protected.Err? {
        return Fail(protected.error);
      }
      if !protected.value.datum.ClaimDatum? {
        return Fail(InvalidShape);
      }
      var claim := protected.value.datum.claim;
      if claim.vaultPolicy != vault.deployment.policy || claim.termsHash != vault.deployment.termsHash
        || RefId(claim.requestRef) != request.ref || RefId(claim.stateRef) != vault.state.ref
      {
        return Fail(MissingLineage);
      }
      var owed := ClaimValue(claim);
      if owed.Err? {
        return Fail(owed.error);
      }
      var funded := AssertSameValue(source.content.value, owed.value);
      if funded.Fail? {
        return funded;
      }
      requests := requests[key := request.(
        status := Claimable, settlement := Some(SettlementRecord(tx.id, vault.state.ref, source.ref, point)))];
      claims := claims[source.ref := ClaimRecord(source.ref, claim, source, request.ref, false)];
      return Pass;
    }

    method Advance(policy: Hex, tx: AcceptedTransaction, point: ChainPoint, network: NetworkBinding) returns (done: Outcome)
      requires policy in vaults
      modifies this
      ensures done.Pass? <==> AdvanceState(old(View()), policy, tx, point, network).Ok?
      ensures done.Fail? ==> AdvanceState(old(View()), policy, tx, point, network) == Err(done.error)
      ensures done.Pass? ==> Ok(View()) == AdvanceState(old(View()), policy, tx, point, network)
    {
      hide RecordSettlement, SuccessorState;
      ghost var before := View();
      var vault := vaults[policy];
      var redeemer := ActionOf(tx, vault.state.ref);
      if redeemer.Err? {
        return Fail(redeemer.error);
      }
      if !redeemer.value.StateAction? {
        return Fail(InvalidShape);
      }
      var action := redeemer.value.state;
      var state := SuccessorState(vault, tx, action, network);
      if state.Err? {
        return Fail(state.error);
      }
      if action.Batch? {
        for k := 0 to |action.entries|
          invariant RecordSettlements(before, vault, tx, action.entries, k, point, network) == Ok(View())
        {
          var recorded := Record(vault, tx, action.entries[k], point, network);
          if recorded.Fail? {
            SettlementsFailEarly(before, vault, tx, action.entries, k + 1, |action.entries|, point, network);
            return recorded;
          }
        }
        SettlementsKeepVaults(before, vault, tx, action.entries, |action.entries|, point, network);
      }
      vaults := vaults[policy := vault.(state := state.value, deployment := vault.deployment.(chainPoint := point))];
      return Pass;
    }

    method VisitAll(tx: AcceptedTransaction, point: ChainPoint, network: NetworkBinding) returns (done: Outcome)
      modifies this
      ensures done.Fail? ==> VisitVaults(old(View()), old(order), |old(order)|, tx, point, network) == Err(done.error)
      ensures done.Pass? ==> Ok(View()) == VisitVaults(old(View()), old(order), |old(order)|, tx, point, network)
    {
      hide AdvanceState;
      ghost var before := View();
      var visiting := order;
      for k := 0 to |visiting|
        invariant VisitVaults(before, visiting, k, tx, point, network) == Ok(View())
      {
        var policy := visiting[k];
        if policy in vaults {
          if vaults[policy].deployment.configRef in tx.inputs {
            VisitsFailEarly(before, visiting, k + 1, |visiting|, tx, point, network);
            return Fail(Unauthorized);
          }
          if vaults[policy].state.ref in tx.inputs {
            var advanced := Advance(policy, tx, point, network);
            if advanced.Fail? {
              VisitsFailEarly(before, visiting, k + 1, |visiting|, tx, point, network);
              return advanced;
            }
          }
        }
      }
      return Pass;
    }

    method ConsumeOne(ref: OutRef, tx: AcceptedTransaction, point: ChainPoint) returns (done: Outcome)
      modifies this
      ensures done.Fail? ==> Consume(old(View()), ref, tx, point) == Err(done.error)
      ensures done.Pass? ==> Ok(View()) == Consume(old(View()), ref, tx, point)
    {
      if ref in requests && requests[ref].status.PendingEscrow? {
        var redeemer := ActionOf(tx, ref);
        if redeemer.Err? {
          return Fail(redeemer.error);
        }
        if !redeemer.value.RequestAction? || redeemer.value.request.Acknowledge? {
          return Fail(MissingLineage);
        }
        var refund := FindOutput(tx.outputs, redeemer.value.request.refundOutput);
        if refund.None? {
          return Fail(MissingOutput);
        }
        requests := requests[ref := requests[ref].(
          status := Refunded, completion := Some(CompletionRecord(tx.id, refund.value.ref, point)))];
      }
      if ref in claims {
        var tracked := claims[ref];
        var redeemer := ActionOf(tx, ref);
        if redeemer.Err? {
          return Fail(redeemer.error);
        }
        if !redeemer.value.ClaimAction? {
          return Fail(InvalidShape);
        }
        var index := ReceiverIndex(redeemer.value.claim.deliveries, ref);
        var delivery := if index.None? then None else FindOutput(tx.outputs, index.value);
        if delivery.None? {
          return Fail(MissingOutput);
        }
        if tracked.request !in requests {
          return Fail(MissingLineage);
        }
        requests := requests[tracked.request := requests[tracked.request].(
          status := Delivered, completion := Some(CompletionRecord(tx.id, delivery.value.ref, point)))];
        claims := claims[ref := tracked.(delivered := true)];
      }
      return Pass;
    }

    method ConsumeAll(tx: AcceptedTransaction, point: ChainPoint) returns (done: Outcome)
      modifies this
      ensures done.Fail? ==> ConsumeInputs(old(View()), |tx.inputs|, tx, point) == Err(done.error)
      ensures done.Pass? ==> Ok(View()) == ConsumeInputs(old(View()), |tx.inputs|, tx, point)
    {
      hide Consume;
      ghost var before := View();
      for k := 0 to |tx.inputs|
        invariant ConsumeInputs(before, k, tx, point) == Ok(View())
      {
        var consumed := ConsumeOne(tx.inputs[k], tx, point);
        if consumed.Fail? {
          ConsumptionFailsEarly(before, k + 1, |tx.inputs|, tx, point);
          return consumed;
        }
      }
      return Pass;
    }

    method AddGenesis(
      tx: AcceptedTransaction, point: ChainPoint, network: NetworkBinding, builds: seq<ReviewedBuild>, selected: Option<set<Hex>>
    ) returns (done: Outcome)
      modifies this
      ensures
        var discovered := DiscoverGenesis(tx, builds, point, network);
        && (done.Fail? ==>
              if discovered.Err? then discovered.error == done.error
              else AddVaults(old(View()), discovered.value, |discovered.value|, selected) == Err(done.error))
        && (done.Pass? ==>
              discovered.Ok? && Ok(View()) == AddVaults(old(View()), discovered.value, |discovered.value|, selected))
    {
      hide DiscoverGenesis;
      ghost var before := View();
      var discovered := FindGenesis(tx, builds, point, network);
      if discovered.Err? {
        return Fail(discovered.error);
      }
      for k := 0 to |discovered.value|
        invariant AddVaults(before, discovered.value, k, selected) == Ok(View())
      {
        var vault := discovered.value[k];
        var policy := vault.deployment.policy;
        if selected.None? || policy in selected.value {
          if policy in vaults {
            AdditionsFailEarly(before, discovered.value, k + 1, |discovered.value|, selected);
            return Fail(DuplicateReference);
          }
          vaults := vaults[policy := vault];
          order := order + [policy];
        }
      }
      return Pass;
    }

    method ProjectOutputs(tx: AcceptedTransaction, point: ChainPoint, network: NetworkBinding)
      modifies this
      ensures View() == ProjectUtxos(old(View()), tx, point, network)
    {
      hide Recognize;
      ghost var before := View();
      for k := 0 to |tx.inputs|
        invariant View() == before.(utxos := before.utxos - set ref | ref in tx.inputs[..k])
      {
        assert tx.inputs[..k + 1] == tx.inputs[..k] + [tx.inputs[k]];
        utxos := utxos - {tx.inputs[k]};
      }
      assert tx.inputs[..|tx.inputs|] == tx.inputs;
      ghost var spent := View();
      for k := 0 to |tx.outputs|
        invariant View() == AddOutputs(spent, k, tx, point, network)
      {
        var source := tx.outputs[k];
        var record := Recognize(View(), source, point, network);
        utxos := utxos[source.ref := source];
        if record.Some? {
          requests := requests[source.ref := record.value];
        }
      }
    }

    method Project(
      tx: AcceptedTransaction, point: ChainPoint, network: NetworkBinding, builds: seq<ReviewedBuild>, selected: Option<set<Hex>>
    ) returns (done: Outcome)
      modifies this
      ensures done.Fail? ==> ProjectTransaction(old(View()), tx, point, network, builds, selected) == Err(done.error)
      ensures done.Pass? ==> Ok(View()) == ProjectTransaction(old(View()), tx, point, network, builds, selected)
    {
      hide VisitVaults, ConsumeInputs, AddVaults, ProjectUtxos, DiscoverGenesis;
      if tx.id in transactions {
        return Fail(DuplicateReference);
      }
      transactions := transactions + {tx.id};
      if tx.valid {
        var visited := VisitAll(tx, point, network);
        if visited.Fail? {
          return visited;
        }
        var consumed := ConsumeAll(tx, point);
        if consumed.Fail? {
          return consumed;
        }
        var added := AddGenesis(tx, point, network, builds, selected);
        if added.Fail? {
          return added;
        }
      }
      ProjectOutputs(tx, point, network);
      return Pass;
    }
  }

  lemma SettlementKeepsVaults(
    p: Projection, vault: VaultRecord, tx: AcceptedTransaction, entry: SettleEntry, point: ChainPoint, network: NetworkBinding)
    requires RecordSettlement(p, vault, tx, entry, point, network).Ok?
    ensures
      var q := RecordSettlement(p, vault, tx, entry, point, network).value;
      q == p.(requests := q.requests, claims := q.claims)
  {
    hide ClaimValue, AssertSameValue;
  }

  lemma {:induction false} SettlementsKeepVaults(
    p: Projection, vault: VaultRecord, tx: AcceptedTransaction, entries: seq<SettleEntry>, k: nat, point: ChainPoint, network: NetworkBinding)
    requires k <= |entries| && RecordSettlements(p, vault, tx, entries, k, point, network).Ok?
    ensures
      var q := RecordSettlements(p, vault, tx, entries, k, point, network).value;
      q.vaults == p.vaults && q.order == p.order && q.utxos == p.utxos && q.transactions == p.transactions
  {
    hide RecordSettlement;
    if k > 0 {
      SettlementsKeepVaults(p, vault, tx, entries, k - 1, point, network);
      SettlementKeepsVaults(
        RecordSettlements(p, vault, tx, entries, k - 1, point, network).value, vault, tx, entries[k - 1], point, network);
    }
  }
}
