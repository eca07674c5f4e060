/** Planner and reader agree: a transaction that realizes a batch plan is recorded as exactly what was planned. */
module Agreement {
  import opened Results
  import opened Types
  import opened Arithmetic
  import opened HexStrings
  import opened Values
  import opened References
  import opened Quotes
  import opened Planning
  import opened Settlement
  import opened Planners
  import opened Batches
  import opened PlannedCustody
  import opened Participation
  import opened AcceptedTransactions
  import opened Projections
  import opened Projecting
  import opened EffectsLedger

  /** A planned output as the reader sees it on its network. */
  function Onchain(o: PlannedOutput, networkId: int): RawOutput {
    RawOutput(PlannedAddress(o.address, networkId), o.value, o.datum, false, false)
  }

  /** A valid transaction whose outputs begin with the planned ones, in order. */
  predicate Emits(tx: AcceptedTransaction, outputs: seq<PlannedOutput>, network: NetworkBinding) {
    && tx.valid && |outputs| <= |tx.outputs|
    && (forall i :: 0 <= i < |tx.outputs| ==> tx.outputs[i].ref == OutRef(tx.id, i))
    && forall i :: 0 <= i < |outputs| ==> tx.outputs[i].content == Onchain(outputs[i], network.networkId)
  }

  lemma {:induction false} FindOutputAt(outputs: seq<LedgerOutput>, from: nat, id: Hex, i: nat)
    requires i < |outputs| && forall k :: 0 <= k < |outputs| ==> outputs[k].ref == OutRef(id, from + k)
    ensures FindOutput(outputs, from + i) == Some(outputs[i])
    decreases |outputs|
  {
    if i > 0 {
      FindOutputAt(outputs[1..], from + 1, id, i - 1);
    }
  }

  /** Exact custody that a transaction emits is protected custody to the reader. */
  lemma EmittedIsProtected(
    tx: AcceptedTransaction, outputs: seq<PlannedOutput>, network: NetworkBinding, i: nat, script: Hex, datum: Datum, custody: Value)
    requires Emits(tx, outputs, network) && i < |outputs| && HoldsExactly(outputs[i], script, datum, custody)
    requires Lower(script) == script
    ensures i < |tx.outputs| && FindOutput(tx.outputs, i) == Some(tx.outputs[i]) && tx.outputs[i].ref == OutRef(tx.id, i)
    ensures ProtectedOutput(tx.outputs[i], script, network.networkId)
         == Ok(ProtectedInput(OutRef(tx.id, i), Enterprise(Script, script), datum, outputs[i].value))
    ensures AssertSameValue(tx.outputs[i].content.value, custody).Pass?
  {
    hide AssertSameValue;
    FindOutputAt(tx.outputs, 0, tx.id, i);
  }

  /** The identity of a vault: what its Claims name and where they are held, wherever and whenever it was last seen. */
  predicate SameIdentity(a: Deployment, b: Deployment) {
    a.policy == b.policy && a.termsHash == b.termsHash && a.claimScript == b.claimScript
  }

  /** What the projection must hold for a batch plan to be about it. */
  ghost predicate Tracks(p: Projection, policy: Hex, options: BatchOptions) {
    && policy in p.vaults && Lower(policy) == policy
    && SameIdentity(p.vaults[policy].deployment, options.context.deployment) && options.context.deployment.policy == policy
    && p.vaults[policy].terms == options.context.terms
    && p.vaults[policy].state == options.stateInput && RefId(options.stateInput.ref) == options.stateInput.ref
    && options.context.deployment.claimScript.Some?
    && Lower(options.context.deployment.claimScript.value) == options.context.deployment.claimScript.value
    && forall k <- p.requests :: p.requests[k].ref == k
  }

  function KeyOfSettled(s: SettledRequest): OutRef {
    RefId(s.source.ref)
  }

  /** Every settled request is tracked as pending, at a reference of its own, and spent by the transaction. */
  ghost predicate Spends(p: Projection, settled: seq<SettledRequest>, tx: AcceptedTransaction) {
    && (forall i :: 0 <= i < |settled| ==>
          KeyOfSettled(settled[i]) in p.requests && p.requests[KeyOfSettled(settled[i])].status.PendingEscrow?
          && KeyOfSettled(settled[i]) in tx.inputs)
    && forall i, j :: 0 <= i < j < |settled| ==> KeyOfSettled(settled[i]) != KeyOfSettled(settled[j])
  }

  /** Where a batch transaction puts the Claim of its i-th settlement. */
  function ClaimAt(tx: AcceptedTransaction, i: nat): OutRef {
    OutRef(tx.id, i + 1)
  }

  /** The record of a request settled at its place in the batch. */
  function SettledRecord(r: RequestRecord, tx: AcceptedTransaction, stateRef: OutRef, i: nat, point: ChainPoint): RequestRecord {
    r.(status := Claimable, settlement := Some(SettlementRecord(tx.id, stateRef, ClaimAt(tx, i), point)))
  }

  /** The first k settlements make their Requests claimable, and every other Request is as before. */
  ghost predicate RequestsRecorded(
    before: map<OutRef, RequestRecord>, after: map<OutRef, RequestRecord>, settled: seq<SettledRequest>, k: nat, tx: AcceptedTransaction,
    stateRef: OutRef, point: ChainPoint)
    requires k <= |settled|
  {
    && after.Keys == before.Keys
    && (forall i :: 0 <= i < k ==>
          && KeyOfSettled(settled[i]) in before
          && after[KeyOfSettled(settled[i])] == SettledRecord(before[KeyOfSettled(settled[i])], tx, stateRef, i, point))
    && forall key <- before :: (forall i :: 0 <= i < k ==> key != KeyOfSettled(settled[i])) ==> after[key] == before[key]
  }

  predicate SameClaim(before: map<OutRef, ClaimRecord>, after: map<OutRef, ClaimRecord>, ref: OutRef) {
    if ref in before then ref in after && after[ref] == before[ref] else ref !in after
  }

  /** The first k settlements add their planned Claims, undelivered, and every other Claim is as before. */
  ghost predicate ClaimsRecorded(
    before: map<OutRef, ClaimRecord>, after: map<OutRef, ClaimRecord>, settled: seq<SettledRequest>, k: nat, tx: AcceptedTransaction)
    requires k <= |settled|
  {
    && (forall i :: 0 <= i < k ==>
          && i + 1 < |tx.outputs| && ClaimAt(tx, i) in after
          && after[ClaimAt(tx, i)] == ClaimRecord(ClaimAt(tx, i), settled[i].claim, tx.outputs[i + 1], KeyOfSettled(settled[i]), false))
    && forall ref :: (forall i :: 0 <= i < k ==> ref != ClaimAt(tx, i)) ==> SameClaim(before, after, ref)
  }

  /** Exactly the first k settlements are recorded, as planned. */
  ghost predicate Recorded(
    p: Projection, q: Projection, settled: seq<SettledRequest>, k: nat, tx: AcceptedTransaction, stateRef: OutRef, point: ChainPoint)
    requires k <= |settled|
  {
    && q == p.(requests := q.requests, claims := q.claims)
    && RequestsRecorded(p.requests, q.requests, settled, k, tx, stateRef, point)
    && ClaimsRecorded(p.claims, q.claims, settled, k, tx)
  }

  /** The settlement of one request under a claim output that the reader takes for exact custody. */
  lemma SettlementIsExact(
    q: Projection, vault: VaultRecord, tx: AcceptedTransaction, entry: SettleEntry, claim: Claim, value: Value, source: LedgerOutput,
    point: ChainPoint, network: NetworkBinding)
    requires vault.deployment.claimScript.Some?
    requires FindOutput(tx.outputs, entry.claimOutput) == Some(source)
    requires
      ProtectedOutput(source, vault.deployment.claimScript.value, network.networkId)
      == Ok(ProtectedInput(source.ref, Enterprise(Script, vault.deployment.claimScript.value), ClaimDatum(claim), value))
    requires ClaimValue(claim).Ok? && AssertSameValue(source.content.value, ClaimValue(claim).value).Pass?
    requires claim.vaultPolicy == vault.deployment.policy && claim.termsHash == vault.deployment.termsHash
    requires claim.requestRef == entry.requestRef && RefId(claim.stateRef) == vault.state.ref
    requires
      var key := RefId(entry.requestRef);
      key in q.requests && q.requests[key].status.PendingEscrow? && q.requests[key].ref == key && key in tx.inputs
    ensures
      var key := RefId(entry.requestRef);
      RecordSettlement(q, vault, tx, entry, point, network)
      == Ok(q.(
           requests := q.requests[key := q.requests[key].(
             status := Claimable, settlement := Some(SettlementRecord(tx.id, vault.state.ref, source.ref, point)))],
           claims := q.claims[source.ref := ClaimRecord(source.ref, claim, source, key, false)]))
  {
    hide RefId, ClaimValue, AssertSameValue, ProtectedOutput, FindOutput;
  }

  lemma RequestsExtend(
    before: map<OutRef, RequestRecord>, after: map<OutRef, RequestRecord>, settled: seq<SettledRequest>, i: nat, tx: AcceptedTransaction,
    stateRef: OutRef, point: ChainPoint)
    requires i < |settled| && RequestsRecorded(before, after, settled, i, tx, stateRef, point) && KeyOfSettled(settled[i]) in before
    requires forall j :: 0 <= j < i ==> KeyOfSettled(settled[j]) != KeyOfSettled(settled[i])
    ensures
      var key := KeyOfSettled(settled[i]);
      && after[key] == before[key]
      && RequestsRecorded(before, after[key := SettledRecord(after[key], tx, stateRef, i, point)], settled, i + 1, tx, stateRef, point)
  {
    hide KeyOfSettled, SettledRecord;
  }

  lemma ClaimsExtend(
    before: map<OutRef, ClaimRecord>, after: map<OutRef, ClaimRecord>, settled: seq<SettledRequest>, i: nat, tx: AcceptedTransaction,
    claim: ClaimRecord)
    requires i < |settled| && ClaimsRecorded(before, after, settled, i, tx) && i + 1 < |tx.outputs|
    requires claim == ClaimRecord(ClaimAt(tx, i), settled[i].claim, tx.outputs[i + 1], KeyOfSettled(settled[i]), false)
    ensures ClaimsRecorded(before, after[ClaimAt(tx, i) := claim], settled, i + 1, tx)
  {
    hide KeyOfSettled;
    var now := after[ClaimAt(tx, i) := claim];
    forall ref | forall j :: 0 <= j < i + 1 ==> ref != ClaimAt(tx, j) ensures SameClaim(before, now, ref) {
      assert ref != ClaimAt(tx, i);
      assert SameClaim(before, after, ref);
    }
  }

  /** One more settlement extends what is recorded. */
  lemma RecordedExtends(
    p: Projection, q: Projection, settled: seq<SettledRequest>, i: nat, tx: AcceptedTransaction, stateRef: OutRef, point: ChainPoint)
    requires i < |settled| && Recorded(p, q, settled, i, tx, stateRef, point) && Spends(p, settled, tx) && i + 1 < |tx.outputs|
    ensures
      var key, ref := KeyOfSettled(settled[i]), ClaimAt(tx, i);
      key in q.requests && q.requests[key] == p.requests[key]
      && Recorded(p, q.(
           requests := q.requests[key := SettledRecord(q.requests[key], tx, stateRef, i, point)],
           claims := q.claims[ref := ClaimRecord(ref, settled[i].claim, tx.outputs[i + 1], key, false)]), settled, i + 1, tx, stateRef, point)
  {
    hide KeyOfSettled, SettledRecord, ClaimsRecorded, ClaimAt;
    var claim := ClaimRecord(ClaimAt(tx, i), settled[i].claim, tx.outputs[i + 1], KeyOfSettled(settled[i]), false);
    assert KeyOfSettled(settled[i]) in p.requests;
    RequestsExtend(p.requests, q.requests, settled, i, tx, stateRef, point);
    ClaimsExtend(p.claims, q.claims, settled, i, tx, claim);
  }

  lemma SettlementIsRecorded(
    p: Projection, q: Projection, policy: Hex, options: BatchOptions, settled: seq<SettledRequest>, i: nat, outputs: seq<PlannedOutput>,
    tx: AcceptedTransaction, point: ChainPoint, network: NetworkBinding)
    requires Tracks(p, policy, options) && Spends(p, settled, tx) && i < |settled|
    requires Recorded(p, q, settled, i, tx, options.stateInput.ref, point)
    requires ClaimNames(settled[i], options.context.deployment, options.stateInput.ref)
    requires Emits(tx, outputs, network) && i + 1 < |outputs|
    requires ClaimValue(settled[i].claim).Ok?
    requires HoldsExactly(outputs[i + 1], options.context.deployment.claimScript.value, ClaimDatum(settled[i].claim),
      ClaimValue(settled[i].claim).value)
    ensures
      var r := RecordSettlement(q, p.vaults[policy], tx, Entries(settled)[i], point, network);
      r.Ok? && Recorded(p, r.value, settled, i + 1, tx, options.stateInput.ref, point)
  {
    hide RefId, ClaimValue, AssertSameValue, Emits, HoldsExactly, Lower, ProtectedOutput, Recorded, RecordSettlement, FindOutput;
    var script, s := options.context.deployment.claimScript.value, settled[i];
    EmittedIsProtected(tx, outputs, network, i + 1, script, ClaimDatum(s.claim), ClaimValue(s.claim).value);
    var source := tx.outputs[i + 1];
    RecordedExtends(p, q, settled, i, tx, options.stateInput.ref, point);
    SettlementIsExact(q, p.vaults[policy], tx, Entries(settled)[i], s.claim, outputs[i + 1].value, source, point, network);
  }

  lemma NothingIsRecorded(p: Projection, settled: seq<SettledRequest>, tx: AcceptedTransaction, stateRef: OutRef, point: ChainPoint)
    ensures Recorded(p, p, settled, 0, tx, stateRef, point)
  {
  }

  lemma {:induction false} SettlementsAreRecorded(
    p: Projection, policy: Hex, options: BatchOptions, settled: seq<SettledRequest>, k: nat, outputs: seq<PlannedOutput>,
    tx: AcceptedTransaction, point: ChainPoint, network: NetworkBinding)
    requires Tracks(p, policy, options) && Spends(p, settled, tx) && k <= |settled|
    requires PlansClaims(settled, outputs, options.context.deployment, options.stateInput.ref) && Emits(tx, outputs, network)
    ensures
      var r := RecordSettlements(p, p.vaults[policy], tx, Entries(settled), k, point, network);
      r.Ok? && Recorded(p, r.value, settled, k, tx, options.stateInput.ref, point)
  {
    hide ClaimValue, Emits, HoldsExactly, Spends, RecordSettlement, ClaimNames, Recorded, ClaimShape, KeyOfSettled, RefId;
    if k == 0 {
      NothingIsRecorded(p, settled, tx, options.stateInput.ref, point);
    } else {
      SettlementsAreRecorded(p, policy, options, settled, k - 1, outputs, tx, point, network);
      var q := RecordSettlements(p, p.vaults[policy], tx, Entries(settled), k - 1, point, network).value;
      assert PlansClaim(settled[k - 1], outputs[k], options.context.deployment);
      SettlementIsRecorded(p, q, policy, options, settled, k - 1, outputs, tx, point, network);
    }
  }

  /** A transaction that spends every planned input with its planned redeemer, and emits the planned outputs. */
  ghost predicate Realizes(tx: AcceptedTransaction, plan: Plan, network: NetworkBinding) {
    && Emits(tx, plan.outputs, network)
    && forall i :: 0 <= i < |plan.inputs| ==>
         && RefId(plan.inputs[i].ref) in tx.inputs
         && RefId(plan.inputs[i].ref) in tx.spends && tx.spends[RefId(plan.inputs[i].ref)] == plan.inputs[i].redeemer
  }

  /** Every submitted Request is tracked and still pending. */
  ghost predicate Pending(p: Projection, requests: seq<BatchRequest>) {
    forall i :: 0 <= i < |requests| ==>
      RefId(requests[i].input.ref) in p.requests && p.requests[RefId(requests[i].input.ref)].status.PendingEscrow?
  }

  /** The next State in sequence, of the same vault under the same Terms. */
  predicate Follows(before: State, after: State) {
    after.sequence == before.sequence + 1 && after.vaultPolicy == before.vaultPolicy && after.termsHash == before.termsHash
  }

  /** Exact State custody in output 0 is the successor that the reader designates. */
  lemma SuccessorIsRecorded(
    vault: VaultRecord, tx: AcceptedTransaction, action: StateRedeemer, outputs: seq<PlannedOutput>, state: State, successor: State,
    network: NetworkBinding)
    requires vault.state.datum == StateDatum(state) && Follows(state, successor)
    requires Lower(vault.deployment.policy) == vault.deployment.policy
    requires Emits(tx, outputs, network) && |outputs| > 0 && action.stateOutput == 0
    requires StateValue(successor, vault.terms).Ok?
    requires HoldsExactly(outputs[0], vault.deployment.policy, StateDatum(successor), StateValue(successor, vault.terms).value)
    ensures
      SuccessorState(vault, tx, action, network)
      == Ok(ProtectedInput(OutRef(tx.id, 0), Enterprise(Script, vault.deployment.policy), StateDatum(successor), outputs[0].value))
  {
    hide Emits, HoldsExactly, StateValue, ProtectedOutput, AssertSameValue, ValidateEconomics, FindOutput, Lower;
    EmittedIsProtected(tx, outputs, network, 0, vault.deployment.policy, StateDatum(successor), StateValue(successor, vault.terms).value);
  }

  /** What a batch plan spends: the State with the batch action, then each Request with its acknowledgment. */
  lemma BatchInputs(options: BatchOptions, state: State, settled: seq<SettledRequest>)
    requires options.context.deployment.claimScript.Some? && AssembleBatch(options, state, settled).Ok?
    ensures
      var plan := AssembleBatch(options, state, settled).value.plan;
      && |plan.inputs| == 1 + |settled| && Distinct(InputRefs(plan.inputs))
      && plan.inputs[0].ref == options.stateInput.ref
      && plan.inputs[0].redeemer == Some(StateAction(Batch(0, Entries(settled), options.rewardKey,
           if TotalsOf(settled).reward > 0 then Some(1 + |settled|) else None)))
      && forall i :: 0 <= i < |settled| ==> plan.inputs[i + 1].ref == settled[i].source.ref
  {
    hide BatchSuccessor, BatchOutputs, TotalsOf, Entries, RefId, IsReference, RoleMatches, ValidMint, FiniteValidity;
  }

  lemma RealizedSpends(
    p: Projection, requests: seq<BatchRequest>, sorted: seq<BatchRequest>, settled: seq<SettledRequest>, plan: Plan,
    tx: AcceptedTransaction, network: NetworkBinding)
    requires Pending(p, requests) && multiset(sorted) == multiset(requests)
    requires |settled| == |sorted| && forall i :: 0 <= i < |settled| ==> settled[i].source == sorted[i].input
    requires |plan.inputs| == 1 + |settled| && Distinct(InputRefs(plan.inputs)) && Realizes(tx, plan, network)
    requires forall i :: 0 <= i < |settled| ==> plan.inputs[i + 1].ref == settled[i].source.ref
    ensures Spends(p, settled, tx)
  {
    hide Emits, RefId;
    forall i | 0 <= i < |settled|
      ensures KeyOfSettled(settled[i]) in p.requests && p.requests[KeyOfSettled(settled[i])].status.PendingEscrow?
      ensures KeyOfSettled(settled[i]) in tx.inputs
    {
      assert sorted[i] in multiset(sorted);
      var j :| 0 <= j < |requests| && requests[j] == sorted[i];
      assert RefId(plan.inputs[i + 1].ref) in tx.inputs;
    }
    forall i, j | 0 <= i < j < |settled| ensures KeyOfSettled(settled[i]) != KeyOfSettled(settled[j]) {
      assert InputRefs(plan.inputs)[i + 1] != InputRefs(plan.inputs)[j + 1];
    }
  }

  lemma SettledSources(
    sorted: seq<BatchRequest>, deployment: Deployment, state: State, stateRef: OutRef, terms: Terms, upperPosixMs: int)
    requires Settlements(sorted, deployment, state, stateRef, terms, upperPosixMs).Ok?
    ensures
      var settled := Settlements(sorted, deployment, state, stateRef, terms, upperPosixMs).value;
      |settled| == |sorted| && forall i :: 0 <= i < |settled| ==> settled[i].source == sorted[i].input
  {
    hide EligibleRequest, SettlementQuote, Settlements;
    SettlementsAreIndividual(sorted, deployment, state, stateRef, terms, upperPosixMs);
  }

  /** Recording settlements says nothing of the vaults, so replacing them afterwards keeps what is recorded. */
  lemma RecordedKeepsVaults(
    p: Projection, q: Projection, settled: seq<SettledRequest>, k: nat, tx: AcceptedTransaction, stateRef: OutRef, point: ChainPoint)
    requires k <= |settled| && Recorded(p, q, settled, k, tx, stateRef, point)
    ensures q.vaults == p.vaults && forall vaults :: q.(vaults := vaults).(vaults := p.vaults) == q
  {
    hide KeyOfSettled;
  }

  lemma AdvanceInParts(
    p: Projection, policy: Hex, tx: AcceptedTransaction, action: StateRedeemer, next: ProtectedInput, q: Projection, point: ChainPoint,
    network: NetworkBinding)
    requires policy in p.vaults && action.Batch?
    requires ActionOf(tx, p.vaults[policy].state.ref) == Ok(StateAction(action))
    requires SuccessorState(p.vaults[policy], tx, action, network) == Ok(next)
    requires RecordSettlements(p, p.vaults[policy], tx, action.entries, |action.entries|, point, network) == Ok(q)
    ensures
      AdvanceState(p, policy, tx, point, network)
      == Ok(q.(vaults := p.vaults[policy := p.vaults[policy].(
           state := next, deployment := p.vaults[policy].deployment.(chainPoint := point))]))
  {
    hide RecordSettlements, SuccessorState, ActionOf;
  }

  /** The redeemer that a realizing transaction attaches to the consumed State. */
  lemma RealizedAction(tx: AcceptedTransaction, plan: Plan, network: NetworkBinding, stateRef: OutRef, action: StateRedeemer)
    requires Realizes(tx, plan, network) && |plan.inputs| > 0 && RefId(stateRef) == stateRef
    requires plan.inputs[0].ref == stateRef && plan.inputs[0].redeemer == Some(StateAction(action))
    ensures stateRef in tx.inputs && ActionOf(tx, stateRef) == Ok(StateAction(action))
  {
    hide Emits, RefId;
  }

  lemma RealizedEmits(tx: AcceptedTransaction, plan: Plan, network: NetworkBinding)
    requires Realizes(tx, plan, network)
    ensures Emits(tx, plan.outputs, network)
  {
  }

  /** What a batch plan holds together: the State it was priced at, its successor, the spent State's action, and exact outputs. */
  ghost predicate PlannedAt(options: BatchOptions, state: State, batch: BatchPlan) {
    var plan, stateRef := batch.plan, options.stateInput.ref;
    && options.stateInput.datum == StateDatum(state) && |plan.outputs| > 0
    && Follows(state, batch.successor)
    && PlansClaims(batch.settled, plan.outputs, options.context.deployment, stateRef)
    && StateValue(batch.successor, options.context.terms).Ok?
    && HoldsExactly(plan.outputs[0], options.context.deployment.policy, StateDatum(batch.successor),
         StateValue(batch.successor, options.context.terms).value)
    && |plan.inputs| == 1 + |batch.settled| && plan.inputs[0].ref == stateRef
    && plan.inputs[0].redeemer.Some? && plan.inputs[0].redeemer.value.StateAction?
    && var action := plan.inputs[0].redeemer.value.state;
       action.Batch? && action.stateOutput == 0 && action.entries == Entries(batch.settled)
  }

  lemma BatchIsPlanned(options: BatchOptions, requests: seq<BatchRequest>) returns (state: State)
    requires BuildBatch(options, requests).Ok?
    ensures PlannedAt(options, state, BuildBatch(options, requests).value)
  {
    hide BuildBatch, AssembleBatch, Settlements, ResolveBatch, ResolveState, SortedReferences, HoldsExactly, PlansClaims, BatchOutputs,
      BatchSuccessor, TotalsOf, StateValue, Entries, InputRefs;
    var batch := BuildBatch(options, requests).value;
    var sorted;
    state, sorted := BatchParts(options, requests);
    AssembledParts(options, state, batch.settled);
    SuccessorFollows(state, options.context.terms, batch.totals);
    BatchInputs(options, state, batch.settled);
    BatchPlansExactly(options, requests);
  }

  lemma SuccessorFollows(state: State, terms: Terms, totals: Totals)
    requires BatchSuccessor(state, terms, totals).Ok?
    ensures Follows(state, BatchSuccessor(state, terms, totals).value)
  {
  }

  lemma BatchSpends(options: BatchOptions, requests: seq<BatchRequest>, p: Projection, tx: AcceptedTransaction, network: NetworkBinding)
    requires BuildBatch(options, requests).Ok? && Pending(p, requests)
    requires Realizes(tx, BuildBatch(options, requests).value.plan, network)
    ensures Spends(p, BuildBatch(options, requests).value.settled, tx)
  {
    hide BuildBatch, AssembleBatch, Settlements, ResolveBatch, ResolveState, SortedReferences, Realizes, TotalsOf, Entries, InputRefs,
      Spends, Pending, Sorted, Distinct;
    var batch := BuildBatch(options, requests).value;
    var deployment, terms, stateRef := options.context.deployment, options.context.terms, options.stateInput.ref;
    var state, sorted := BatchParts(options, requests);
    BatchInputs(options, state, batch.settled);
    SortedReferencesIsCanonical(requests, requests, RequestRef);
    SettledSources(sorted, deployment, state, stateRef, terms, options.validity.upperPosixMs);
    RealizedSpends(p, requests, sorted, batch.settled, batch.plan, tx, network);
  }

  /**
   * The vault stands at the planned successor in output 0, every settled Request is claimable through the very Claim the
   * planner computed for it, at the output the plan gave it, and every other Request and vault is as before.
   */
  ghost predicate RecordedAsPlanned(
    p: Projection, policy: Hex, options: BatchOptions, batch: BatchPlan, tx: AcceptedTransaction, point: ChainPoint, network: NetworkBinding)
    requires policy in p.vaults
  {
    var r, vault := AdvanceState(p, policy, tx, point, network), p.vaults[policy];
    && r.Ok? && |batch.plan.outputs| > 0
    && r.value.vaults == p.vaults[policy := vault.(
         state := ProtectedInput(OutRef(tx.id, 0), Enterprise(Script, policy), StateDatum(batch.successor), batch.plan.outputs[0].value),
         deployment := vault.deployment.(chainPoint := point))]
    && Recorded(p, r.value.(vaults := p.vaults), batch.settled, |batch.settled|, tx, options.stateInput.ref, point)
  }

  /** Any batch that holds together is recorded when a transaction realizes it. */
  lemma RealizedBatchIsRecorded(
    options: BatchOptions, state: State, batch: BatchPlan, p: Projection, policy: Hex, tx: AcceptedTransaction, point: ChainPoint,
    network: NetworkBinding)
    requires PlannedAt(options, state, batch) && Tracks(p, policy, options)
    requires Spends(p, batch.settled, tx) && Realizes(tx, batch.plan, network)
    ensures RecordedAsPlanned(p, policy, options, batch, tx, point, network)
  {
    hide HoldsExactly, Realizes, RefId, Follows, StateValue, RecordSettlements, SuccessorState, Recorded, PlansClaims, Spends,
      Entries, Lower, ActionOf, AdvanceState;
    var vault, stateRef := p.vaults[policy], options.stateInput.ref;
    RealizedEmits(tx, batch.plan, network);
    SettlementsAreRecorded(p, policy, options, batch.settled, |batch.settled|, batch.plan.outputs, tx, point, network);
    var action := batch.plan.inputs[0].redeemer.value.state;
    RealizedAction(tx, batch.plan, network, stateRef, action);
    SuccessorIsRecorded(vault, tx, action, batch.plan.outputs, state, batch.successor, network);
    var q := RecordSettlements(p, vault, tx, action.entries, |action.entries|, point, network).value;
    AdvanceInParts(p, policy, tx, action, SuccessorState(vault, tx, action, network).value, q, point, network);
    RecordedKeepsVaults(p, q, batch.settled, |batch.settled|, tx, stateRef, point);
  }

  /**
   * Planning and projecting agree. Where the reader tracks the State and the pending Requests a batch was planned
   * from, a transaction that realizes the plan advances the vault to exactly the planned successor, and records every
   * settled Request as claimable through the very Claim the planner computed for it; other Requests are untouched.
   */
  lemma PlannedBatchIsRecorded(
    options: BatchOptions, requests: seq<BatchRequest>, p: Projection, policy: Hex, tx: AcceptedTransaction, point: ChainPoint,
    network: NetworkBinding)
    requires BuildBatch(options, requests).Ok?
    requires Tracks(p, policy, options) && Pending(p, requests)
    requires Realizes(tx, BuildBatch(options, requests).value.plan, network)
    ensures RecordedAsPlanned(p, policy, options, BuildBatch(options, requests).value, tx, point, network)
  {
    hide BuildBatch, PlannedAt, Tracks, Pending, Realizes, RecordedAsPlanned, Spends;
    var state := BatchIsPlanned(options, requests);
    BatchSpends(options, requests, p, tx, network);
    RealizedBatchIsRecorded(options, state, BuildBatch(options, requests).value, p, policy, tx, point, network);
  }

  /** What resolving a State checks of its context and of the State's own shape. */
  lemma ResolvedParts(context: Context, stateInput: ProtectedInput)
    requires ResolveState(context, stateInput, Ctvs2).Ok?
    ensures
      var state := ResolveState(context, stateInput, Ctvs2).value;
      && ConsistentContext(context, Ctvs2) && IsReference(context.deployment.configRef) && StateShape(state)
      && SameHex(state.vaultPolicy, context.deployment.policy) && SameHex(state.termsHash, context.deployment.termsHash)
  {
    hide ConsistentContext, StateShape, SameHex, IsReference, StateValue, AssertSameValue;
  }

  lemma StateResolves(context: Context, stateInput: ProtectedInput, state: State)
    requires ConsistentContext(context, Ctvs2) && IsReference(context.deployment.configRef) && StateShape(state)
    requires SameHex(state.vaultPolicy, context.deployment.policy) && SameHex(state.termsHash, context.deployment.termsHash)
    requires stateInput.datum == StateDatum(state) && IsReference(stateInput.ref)
    requires stateInput.address == Enterprise(Script, context.deployment.policy)
    requires ValidEconomics(state, context.terms) && StateValue(state, context.terms).Ok?
    requires AssertSameValue(stateInput.value, StateValue(state, context.terms).value).Pass?
    ensures ResolveState(context, stateInput, Ctvs2) == Ok(state)
  {
    hide ConsistentContext, StateShape, SameHex, IsReference, StateValue, ValidEconomics, Enterprise;
  }

  lemma LaterContext(context: Context, point: ChainPoint)
    requires ConsistentContext(context, Ctvs2) && IsQuantity(point.slot) && ParseHexOf(point.blockHash, 32).Ok?
    ensures ConsistentContext(context.(deployment := context.deployment.(chainPoint := point)), Ctvs2)
  {
    hide TermsShape, FamilyModes, ParseHexOf, SameHex;
  }

  /**
   * The State that the reader records for a batch is one that the next plan resolves: planning never leaves a vault
   * where planning cannot go on.
   */
  lemma RecordedStateResolves(options: BatchOptions, requests: seq<BatchRequest>, txId: Hex, point: ChainPoint)
    requires BuildBatch(options, requests).Ok?
    requires ParseHexOf(txId, 32).Ok? && IsQuantity(point.slot) && ParseHexOf(point.blockHash, 32).Ok?
    ensures
      var Context(deployment, terms, commitment) := options.context;
      var batch := BuildBatch(options, requests).value;
      && |batch.plan.outputs| > 0
      && ResolveState(
           Context(deployment.(chainPoint := point), terms, commitment),
           ProtectedInput(OutRef(txId, 0), Enterprise(Script, deployment.policy), StateDatum(batch.successor), batch.plan.outputs[0].value),
           Ctvs2) == Ok(batch.successor)
  {
    hide BuildBatch, AssembleBatch, Settlements, ResolveBatch, ResolveState, SortedReferences, BatchOutputs, TotalsOf, StateValue,
      ConsistentContext, PlansClaims, ParseHexOf, SameHex, AssertSameValue, Enterprise, ValidateEconomics, ValidEconomics;
    var batch := BuildBatch(options, requests).value;
    var Context(deployment, terms, commitment) := options.context;
    var state, _ := BatchParts(options, requests);
    AssembledParts(options, state, batch.settled);
    BatchPlansExactly(options, requests);
    ResolvedParts(options.context, options.stateInput);
    LaterContext(options.context, point);
    SuccessorKeepsShape(state, terms, batch.totals);
    StateResolves(
      Context(deployment.(chainPoint := point), terms, commitment),
      ProtectedInput(OutRef(txId, 0), Enterprise(Script, deployment.policy), StateDatum(batch.successor), batch.plan.outputs[0].value),
      batch.successor);
  }

  lemma SuccessorKeepsShape(state: State, terms: Terms, totals: Totals)
    requires StateShape(state) && BatchSuccessor(state, terms, totals).Ok?
    ensures
      var successor := BatchSuccessor(state, terms, totals).value;
      && StateShape(successor) && successor.vaultPolicy == state.vaultPolicy && successor.termsHash == state.termsHash
  {
    hide ParseHexOf;
  }

  /** Recording keeps every record under its own reference. */
  lemma RecordedKeepsKeys(
    p: Projection, q: Projection, settled: seq<SettledRequest>, k: nat, tx: AcceptedTransaction, stateRef: OutRef, point: ChainPoint,
    key: OutRef)
    requires k <= |settled| && Recorded(p, q, settled, k, tx, stateRef, point)
    requires key in q.requests && key in p.requests && p.requests[key].ref == key
    ensures q.requests[key].ref == key
  {
    hide KeyOfSettled;
    if i :| 0 <= i < k && KeyOfSettled(settled[i]) == key {
      assert q.requests[key] == SettledRecord(p.requests[key], tx, stateRef, i, point);
    }
  }

  /** The projection after a recorded batch tracks the vault for the next plan, so the two results chain over any run of batches. */
  lemma RecordedIsTracked(
    options: BatchOptions, batch: BatchPlan, p: Projection, policy: Hex, tx: AcceptedTransaction, point: ChainPoint,
    network: NetworkBinding, next: BatchOptions)
    requires Tracks(p, policy, options) && RecordedAsPlanned(p, policy, options, batch, tx, point, network) && Lower(tx.id) == tx.id
    requires SameIdentity(next.context.deployment, options.context.deployment) && next.context.terms == options.context.terms
    requires next.stateInput
      == ProtectedInput(OutRef(tx.id, 0), Enterprise(Script, policy), StateDatum(batch.successor), batch.plan.outputs[0].value)
    ensures Tracks(AdvanceState(p, policy, tx, point, network).value, policy, next)
  {
    hide AdvanceState, Recorded, Lower, KeyOfSettled;
    var q := AdvanceState(p, policy, tx, point, network).value;
    var r := q.(vaults := p.vaults);
    forall key <- q.requests ensures q.requests[key].ref == key {
      assert r.requests.Keys == p.requests.Keys by {
        RecordedSameKeys(p, r, batch.settled, |batch.settled|, tx, options.stateInput.ref, point);
      }
      RecordedKeepsKeys(p, r, batch.settled, |batch.settled|, tx, options.stateInput.ref, point, key);
    }
  }

  lemma RecordedSameKeys(
    p: Projection, q: Projection, settled: seq<SettledRequest>, k: nat, tx: AcceptedTransaction, stateRef: OutRef, point: ChainPoint)
    requires k <= |settled| && Recorded(p, q, settled, k, tx, stateRef, point)
    ensures q.requests.Keys == p.requests.Keys
  {
  }

  /** A Request that the creation planner plans is one that the reader tracks as pending, with its economics readable. */
  lemma PlannedRequestIsTracked(
    context: Context, request: Request, p: Projection, tx: AcceptedTransaction, point: ChainPoint, network: NetworkBinding)
    requires BuildRequestPlan(context, request).Ok? && Emits(tx, BuildRequestPlan(context, request).value.outputs, network)
    requires
      var policy := context.deployment.policy;
      && policy in p.vaults && p.vaults[policy].deployment.family.Ctvs2?
      && Lower(policy) == policy && request.recovery.vaultPolicy == policy
    ensures |tx.outputs| > 0
    ensures
      Recognize(p, tx.outputs[0], point, network)
      == Some(RequestRecord(
           OutRef(tx.id, 0), context.deployment.policy, request.recovery, Some(request), tx.outputs[0], point, PendingEscrow, None, None))
  {
    hide BuildRequestPlan, ConsistentContext, RequestOf, SameHex, RequestValue, AssertSameValue, Output, Lower, Qty, TokenHex;
    var policy := context.deployment.policy;
    CreatedRequestParts(context, request);
    CreatedRequestAddress(context, request);
    EscrowSparesIdentity(context, request, StateToken);
    OwnAssetId(policy, StateToken);
  }

  /** A transaction that realizes a refund plan is recorded as a refund into the planned output. */
  lemma PlannedRefundIsRecorded(
    deployment: Deployment, source: ProtectedInput, mode: RefundMode, validity: TimeBounds, p: Projection, tx: AcceptedTransaction,
    point: ChainPoint, network: NetworkBinding)
    requires RefundPlan(deployment, source, mode, validity).Ok?
    requires Realizes(tx, RefundPlan(deployment, source, mode, validity).value, network)
    requires RefId(source.ref) in p.requests && p.requests[RefId(source.ref)].status.PendingEscrow?
    ensures
      var ref := RefId(source.ref);
      && ref in tx.inputs
      && RefundConsumed(p, ref, tx, point)
         == Ok(p.(requests := p.requests[ref := p.requests[ref].(
              status := Refunded, completion := Some(CompletionRecord(tx.id, OutRef(tx.id, 0), point)))]))
  {
    hide RecoveryOf, AssertFamily, AssertProtectedInput, FiniteValidity, SameHex, Output, ValidPlan, Qty, OwnAsset, AssetId, RefId;
    var plan := RefundPlan(deployment, source, mode, validity).value;
    assert plan.inputs[0] == PlanInput(source.ref, RequestInput, Some(RequestAction(Refund(mode, 0))));
    FindOutputAt(tx.outputs, 0, tx.id, 0);
  }

  lemma {:induction false} ReceiverIndexAt(sources: seq<ProtectedInput>, entries: seq<DeliverEntry>, from: nat, i: nat)
    requires |entries| == |sources| && i < |sources|
    requires forall k :: 0 <= k < |sources| ==> entries[k] == DeliverEntry(sources[k].ref, from + k)
    requires forall j, k :: 0 <= j < k < |sources| ==> RefId(sources[j].ref) != RefId(sources[k].ref)
    ensures ReceiverIndex(entries, RefId(sources[i].ref)) == Some(from + i)
  {
    hide RefId;
    if i > 0 {
      assert RefId(sources[0].ref) != RefId(sources[i].ref);
      ReceiverIndexAt(sources[1..], entries[1..], from + 1, i - 1);
    }
  }

  lemma DeliveryParts(deployment: Deployment, claims: seq<ProtectedInput>) returns (sorted: seq<ProtectedInput>)
    requires BuildDeliverPlan(deployment, claims).Ok?
    ensures SortedReferences(claims, SourceRef) == Ok(sorted) && |sorted| == |claims| && multiset(sorted) == multiset(claims)
    ensures forall j, k :: 0 <= j < k < |sorted| ==> RefId(sorted[j].ref) != RefId(sorted[k].ref)
    ensures
      var plan := BuildDeliverPlan(deployment, claims).value;
      && plan.inputs == DeliverInputs(sorted, Deliver(DeliverEntries(sorted))) && |plan.outputs| == |sorted|
  {
    hide DeliverOutput, RefId, RefLess, AssertFamily, SortItems;
    sorted := SortedReferences(claims, SourceRef).value;
    SortedReferencesIsCanonical(claims, claims, SourceRef);
    SortableIsUnordered(claims, sorted, SourceRef);
    var ids := Ids(sorted, SourceRef);
    forall j, k | 0 <= j < k < |sorted| ensures RefId(sorted[j].ref) != RefId(sorted[k].ref) {
      assert ids[j] != ids[k];
    }
    assert |multiset(sorted)| == |multiset(claims)|;
  }

  lemma DirectedDelivery(p: Projection, ref: OutRef, tx: AcceptedTransaction, point: ChainPoint, entries: seq<DeliverEntry>, index: int)
    requires ref in p.claims && p.claims[ref].request in p.requests
    requires ActionOf(tx, ref) == Ok(ClaimAction(Deliver(entries))) && ReceiverIndex(entries, ref) == Some(index)
    requires FindOutput(tx.outputs, index).Some? && FindOutput(tx.outputs, index).value.ref == OutRef(tx.id, index)
    ensures
      var key := p.claims[ref].request;
      DeliverConsumed(p, ref, tx, point)
      == Ok(p.(
           requests := p.requests[key := p.requests[key].(
             status := Delivered, completion := Some(CompletionRecord(tx.id, OutRef(tx.id, index), point)))],
           claims := p.claims[ref := p.claims[ref].(delivered := true)]))
  {
    hide ActionOf, ReceiverIndex, FindOutput;
  }

  /**
   * A transaction that realizes a delivery plan is recorded as delivering every Claim of the plan to the output planned
   * for it: the i-th in reference order at output i.
   */
  lemma PlannedDeliveryIsRecorded(
    deployment: Deployment, claims: seq<ProtectedInput>, i: nat, p: Projection, tx: AcceptedTransaction, point: ChainPoint,
    network: NetworkBinding)
    requires BuildDeliverPlan(deployment, claims).Ok? && i < |claims|
    requires Realizes(tx, BuildDeliverPlan(deployment, claims).value, network)
    requires
      var sorted := SortedReferences(claims, SourceRef).value;
      && RefId(sorted[i].ref) in p.claims && p.claims[RefId(sorted[i].ref)].request in p.requests
    ensures
      var ref := RefId(SortedReferences(claims, SourceRef).value[i].ref);
      var key := p.claims[ref].request;
      && ref in tx.inputs
      && DeliverConsumed(p, ref, tx, point)
         == Ok(p.(
              requests := p.requests[key := p.requests[key].(
                status := Delivered, completion := Some(CompletionRecord(tx.id, OutRef(tx.id, i), point)))],
              claims := p.claims[ref := p.claims[ref].(delivered := true)]))
  {
    hide BuildDeliverPlan, RefId, ReceiverIndex, SortableReferences, SortItems, DeliverConsumed, FindOutput;
    var plan := BuildDeliverPlan(deployment, claims).value;
    var sorted := DeliveryParts(deployment, claims);
    ReceiverIndexAt(sorted, DeliverEntries(sorted), 0, i);
    assert plan.inputs[i] == PlanInput(sorted[i].ref, ClaimInput, Some(ClaimAction(Deliver(DeliverEntries(sorted)))));
    FindOutputAt(tx.outputs, 0, tx.id, i);
    DirectedDelivery(p, RefId(sorted[i].ref), tx, point, DeliverEntries(sorted), i);
  }
}
