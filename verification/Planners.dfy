/** The single-purpose planners: genesis, direct operations, maintenance, escrow creation, refunds and delivery. */
module Planners {
  import opened Results
  import opened Types
  import opened Arithmetic
  import opened HexStrings
  import opened References
  import opened Values
  import opened Quotes
  import opened Transitions
  import opened Planning
  import opened Settlement

  /** A plan that consumes the State, with the State it produces. */
  datatype StatePlan = StatePlan(plan: Plan, successor: State)

  function StateUpdate(context: Context, successor: State): Result<PlannedOutput> {
    var custody :- StateValue(successor, context.terms);
    Output(StateOutput, ScriptDestination(context.deployment.policy), custody, Some(StateDatum(successor)))
  }

  /** One immediate operation: State at output 0, the receiver at output 1, and the signed share mint. */
  function BuildDirectPlan(
    context: Context, stateInput: ProtectedInput, operation: Operation, amount: int, bound: int, receiver: Destination, receiverTopup: int
  ): Result<StatePlan> {
    var Context(deployment, terms, _) := context;
    var state :- ResolveState(context, stateInput, Ctvs1);
    var _ :- Quantity(receiverTopup);
    var TransitionResult(quote, successor, shareMint) :- Transition(operation, amount, bound, state, terms, false);
    var asset := if operation.IsEntry() then OwnAsset(deployment.policy, ShareToken) else terms.underlying;
    var stateOutput :- StateUpdate(context, successor);
    var received :- ValueOf([(asset, Economic(quote)), (Ada, receiverTopup)]);
    var receiverOutput :- Output(ReceiverOutput, receiver, received, None);
    var action := Direct(operation, receiver, amount, bound, 0, 1);
    var plan :- CreatePlan(Plan(
      DirectOperation(operation), deployment,
      [PlanInput(stateInput.ref, StateInput, Some(StateAction(action)))],
      [deployment.configRef],
      [stateOutput, receiverOutput],
      [SupplyMint(deployment.policy, shareMint, stateInput.ref)],
      [], None));
    Ok(StatePlan(plan, successor))
  }

  /** A State change that moves no shares. */
  function PlanStateChange(
    context: Context, stateInput: ProtectedInput, successor: State, operation: PlanOperation, action: StateRedeemer,
    extraOutputs: seq<PlannedOutput>, signers: seq<Hex>
  ): Result<StatePlan> {
    var _ :- ValidateEconomics(successor, context.terms);
    var stateOutput :- StateUpdate(context, successor);
    var plan :- CreatePlan(Plan(
      operation, context.deployment,
      [PlanInput(stateInput.ref, StateInput, Some(StateAction(action)))],
      [context.deployment.configRef],
      [stateOutput] + extraOutputs,
      [], signers, None));
    Ok(StatePlan(plan, successor))
  }

  function CreateCollectFeesPlan(family: Family, context: Context, stateInput: ProtectedInput, receiverTopup: int): Result<StatePlan> {
    var state :- ResolveState(context, stateInput, family);
    var _ :- Quantity(receiverTopup);
    var _ :- Positive(state.accruedFees);
    var paid :- ValueOf([(context.terms.underlying, state.accruedFees), (Ada, receiverTopup)]);
    var payout :- Output(FeesOutput, context.terms.feeDestination, paid, None);
    var successor := state.(sequence := state.sequence + 1, accruedFees := 0);
    PlanStateChange(context, stateInput, successor, CollectFeesOperation, CollectFees(0, 1), [payout], [])
  }

  function CreateTopUpPlan(family: Family, context: Context, stateInput: ProtectedInput, additionalLovelace: int): Result<StatePlan> {
    var state :- ResolveState(context, stateInput, family);
    var _ :- Positive(additionalLovelace);
    var successor := state.(sequence := state.sequence + 1, storageLovelace := state.storageLovelace + additionalLovelace);
    PlanStateChange(context, stateInput, successor, TopUpOperation, TopUpReserve(additionalLovelace, 0), [], [])
  }

  function CreateSetPausePlan(family: Family, context: Context, stateInput: ProtectedInput, pauseFlags: int): Result<StatePlan> {
    var state :- ResolveState(context, stateInput, family);
    var _ :- Integer(pauseFlags, 0, 3);
    :- Need(context.terms.pauseKey.Some?, Unauthorized);
    var successor := state.(sequence := state.sequence + 1, pauseFlags := pauseFlags);
    PlanStateChange(context, stateInput, successor, SetPauseOperation, SetPause(pauseFlags, 0), [], [context.terms.pauseKey.value])
  }

  /** Empty accounting, positive reserves, and exactly one ID and one STATE token. */
  function CreateGenesisPlan(family: Family, context: Context, seed: OutRef, configReserve: int, stateReserve: int): Result<StatePlan> {
    var Context(deployment, terms, _) := context;
    :- AssertContext(context, family);
    :- Need(IsReference(seed), InvalidBytes);
    var _ :- Positive(configReserve);
    var _ :- Positive(stateReserve);
    var state := State(deployment.policy, deployment.termsHash, 0, 0, 0, 0, stateReserve, 0);
    var _ :- ValidateEconomics(state, terms);
    var config := Config(deployment.policy, seed, deployment.termsHash, terms, configReserve);
    var custody :- ValueOf([(Ada, configReserve), (OwnAsset(deployment.policy, IdToken), 1)]);
    var configOutput :- Output(ConfigOutput, ScriptDestination(deployment.configLock), custody, Some(ConfigDatum(config)));
    var stateOutput :- StateUpdate(context, state);
    var plan :- CreatePlan(Plan(
      Genesis, deployment,
      [PlanInput(seed, GenesisSeed, None)],
      [],
      [configOutput, stateOutput],
      [PlannedMint(deployment.policy, map[TokenHex(IdToken) := 1, TokenHex(StateToken) := 1], Initialize(0, 1))],
      [], None));
    Ok(StatePlan(plan, state))
  }

  /** A funded Request candidate in an advertised direction; no State is consumed. */
  function BuildRequestPlan(context: Context, request: Request): Result<Plan> {
    var Context(deployment, terms, _) := context;
    :- AssertContext(context, Ctvs2);
    var _ :- RequestOf(RequestDatum(request));
    :- Need(SameHex(request.recovery.vaultPolicy, deployment.policy), BindingMismatch);
    :- Need(SameHex(request.body.termsHash, deployment.termsHash), BindingMismatch);
    :- Need(Bit(terms.executionModes, Mode(request.body.kind.DepositRequest?, true)), UnsupportedMode);
    var escrow :- RequestValue(request, terms);
    var output :- Output(RequestOutput, ScriptDestination(deployment.policy), escrow, Some(RequestDatum(request)));
    CreatePlan(Plan(CreateRequest, deployment, [], [deployment.configRef], [output], [], [], None))
  }

  /** The Recovery of a Request candidate, whether or not its economic body is supported. */
  function RecoveryOf(datum: Datum): Result<Recovery> {
    match datum
    case RequestDatum(request) => if RecoveryShape(request.recovery) then Ok(request.recovery) else Err(InvalidShape)
    case RecoveryDatum(recovery, _) => if RecoveryShape(recovery) then Ok(recovery) else Err(InvalidShape)
    case _ => Err(InvalidShape)
  }

  /** The whole source value returns to the refund destination; State and ID custody cannot be refunded. */
  function RefundPlan(deployment: Deployment, source: ProtectedInput, mode: RefundMode, validity: TimeBounds): Result<Plan> {
    var refund := RecoveryOf(source.datum);
    :- AssertFamily(deployment, Ctvs2);
    :- AssertProtectedInput(source, deployment.policy);
    var recovery :- refund;
    :- FiniteValidity(validity);
    :- Need(SameHex(recovery.vaultPolicy, deployment.policy), BindingMismatch);
    :- Need(Qty(source.value, AssetId(OwnAsset(deployment.policy, StateToken))) == 0, Unauthorized);
    :- Need(Qty(source.value, AssetId(OwnAsset(deployment.policy, IdToken))) == 0, Unauthorized);
    :- Need(mode.Expiry? ==> recovery.deadlinePosixMs <= validity.lowerPosixMs, DeadlineExceeded);
    var output :- Output(RefundOutput, recovery.refund, source.value, None);
    CreatePlan(Plan(
      RefundOperation(mode), deployment,
      [PlanInput(source.ref, RequestInput, Some(RequestAction(Refund(mode, 0))))],
      [], [output], [],
      if mode.Cancel? then [recovery.controller] else [],
      Some(validity)))
  }

  function SourceRef(source: ProtectedInput): OutRef {
    source.ref
  }

  function DeliverEntries(sources: seq<ProtectedInput>): (entries: seq<DeliverEntry>)
    ensures |entries| == |sources|
  {
    seq(|sources|, i requires 0 <= i < |sources| => DeliverEntry(sources[i].ref, i))
  }

  function DeliverInputs(sources: seq<ProtectedInput>, action: ClaimRedeemer): (inputs: seq<PlanInput>)
    ensures |inputs| == |sources|
    ensures forall i :: 0 <= i < |sources| ==> inputs[i] == PlanInput(sources[i].ref, ClaimInput, Some(ClaimAction(action)))
  {
    seq(|sources|, i requires 0 <= i < |sources| => PlanInput(sources[i].ref, ClaimInput, Some(ClaimAction(action))))
  }

  /** An output at a destination's address, with the destination's own datum or none. */
  predicate PaysTo(o: PlannedOutput, destination: Destination) {
    && o.address == destination.address
    && o.datum == if destination.datum.None? then None else Some(OpaqueDatum(destination.datum.value))
  }

  /** One Claim's whole value, paid to its receiver. */
  function DeliverOutput(source: ProtectedInput, claimScript: Hex): (r: Result<PlannedOutput>)
    ensures r.Ok? ==> source.datum.ClaimDatum? && forall a :: Qty(r.value.value, a) == Qty(source.value, a)
    ensures r.Ok? ==> PaysTo(r.value, source.datum.claim.receiver)
  {
    var datum := source.datum;
    :- AssertProtectedInput(source, claimScript);
    :- Need(datum.ClaimDatum? && ClaimShape(datum.claim), InvalidShape);
    Output(DeliveryOutput, datum.claim.receiver, source.value, None)
  }

  function DeliverOutputs(sources: seq<ProtectedInput>, claimScript: Hex): (r: Result<seq<PlannedOutput>>)
    ensures r.Ok? ==> |r.value| == |sources|
  {
    if sources == [] then Ok([])
    else
      var source := sources[|sources| - 1];
      var earlier :- DeliverOutputs(sources[..|sources| - 1], claimScript);
      var output :- DeliverOutput(source, claimScript);
      Ok(earlier + [output])
  }

  /** 1..16 Claims, each paid whole to its receiver under one exhaustive redeemer. */
  function BuildDeliverPlan(deployment: Deployment, claims: seq<ProtectedInput>): Result<Plan> {
    var sorting := SortedReferences(claims, SourceRef);
    :- AssertFamily(deployment, Ctvs2);
    var sorted :- sorting;
    var outputs :- DeliverOutputs(sorted, deployment.claimScript.value);
    CreatePlan(Plan(
      DeliverOperation, deployment,
      DeliverInputs(sorted, Deliver(DeliverEntries(sorted))),
      [], outputs, [], [], None))
  }

  /** What delivered Claims held of one asset. */
  function SourcesSum(sources: seq<ProtectedInput>, a: Asset): int {
    if sources == [] then 0 else SourcesSum(sources[..|sources| - 1], a) + Qty(sources[|sources| - 1].value, a)
  }

  lemma {:induction false} DeliveredAreClaims(sources: seq<ProtectedInput>, claimScript: Hex)
    requires DeliverOutputs(sources, claimScript).Ok?
    ensures forall i :: 0 <= i < |sources| ==> sources[i].datum.ClaimDatum?
  {
    hide DeliverOutput;
    if sources != [] {
      DeliveredAreClaims(sources[..|sources| - 1], claimScript);
    }
  }

  lemma {:induction false} DeliverOutputsPayWhole(sources: seq<ProtectedInput>, claimScript: Hex, a: Asset)
    requires DeliverOutputs(sources, claimScript).Ok?
    ensures OutputSum(DeliverOutputs(sources, claimScript).value, a) == SourcesSum(sources, a)
  {
    hide DeliverOutput;
    if sources != [] {
      var earlier := DeliverOutputs(sources[..|sources| - 1], claimScript).value;
      DeliverOutputsPayWhole(sources[..|sources| - 1], claimScript, a);
      var last := DeliverOutputs(sources, claimScript).value[|earlier|];
      OutputSumAppend(earlier, [last], a);
      assert [last][1..] == [];
    }
  }

  /** Delivery pays out every asset of every Claim, surplus included, and mints nothing. */
  lemma DeliveryConserves(deployment: Deployment, claims: seq<ProtectedInput>, a: Asset)
    requires BuildDeliverPlan(deployment, claims).Ok?
    ensures
      var plan := BuildDeliverPlan(deployment, claims).value;
      && plan.mint == []
      && OutputSum(plan.outputs, a) == SourcesSum(SortedReferences(claims, SourceRef).value, a)
  {
    hide ValidPlan;
    DeliverOutputsPayWhole(SortedReferences(claims, SourceRef).value, deployment.claimScript.value, a);
  }

  /** A refund returns the source's whole custody, mints nothing, and never touches State or ID custody. */
  lemma RefundConserves(
    deployment: Deployment, source: ProtectedInput, mode: RefundMode, validity: TimeBounds, plan: Plan, recovery: Recovery, a: Asset)
    requires RefundPlan(deployment, source, mode, validity) == Ok(plan) && RecoveryOf(source.datum) == Ok(recovery)
    ensures plan.mint == [] && OutputSum(plan.outputs, a) == Qty(source.value, a)
    ensures |plan.outputs| == 1 && plan.outputs[0].address == recovery.refund.address
    ensures mode.Expiry? ==> recovery.deadlinePosixMs <= validity.lowerPosixMs
    ensures mode.Cancel? ==> plan.requiredSigners == [recovery.controller]
    ensures Qty(source.value, AssetId(OwnAsset(deployment.policy, StateToken))) == 0
    ensures Qty(source.value, AssetId(OwnAsset(deployment.policy, IdToken))) == 0
  {
    hide ValidPlan, RecoveryOf, AssertProtectedInput, AssetId, OwnAsset, SameHex, FiniteValidity;
    assert plan.outputs[1..] == [];
  }

  /**
   * A direct plan balances once the user's side is counted: an entry brings the gross assets and an exit
   * brings the shares to burn; the receiver's top-up is external.
   */
  lemma DirectConserves(
    context: Context, stateInput: ProtectedInput, operation: Operation, amount: int, bound: int, receiver: Destination,
    receiverTopup: int, plan: Plan, successor: State, state: State, quote: Quote, a: Asset)
    requires BuildDirectPlan(context, stateInput, operation, amount, bound, receiver, receiverTopup) == Ok(StatePlan(plan, successor))
    requires ResolveState(context, stateInput, Ctvs1) == Ok(state) && Preview(operation, amount, state, context.terms) == Ok(quote)
    ensures
      Qty(stateInput.value, a) + MintOf(plan.mint, a) + When(a == Ada, receiverTopup)
        + When(operation.IsEntry() && a == AssetId(context.terms.underlying), quote.grossAssets)
        + When(!operation.IsEntry() && a == AssetId(OwnAsset(context.deployment.policy, ShareToken)), quote.shares)
        == OutputSum(plan.outputs, a)
  {
    hide ValidPlan, ConsistentContext, ResolveState, IsAddress, ValidEconomics, ParseHexOf, Preview, WithinBound, OwnAsset, MintOf, SupplyMint, StateUpdate;
    ResolvedStateHolds(context, stateInput, Ctvs1);
    QuoteFavoursVault(operation, amount, state, context.terms);
    StateUpdateHolds(context, successor, a);
    StateEntriesMean(state, context.terms, context.deployment.policy, a);
    StateEntriesMean(successor, context.terms, context.deployment.policy, a);
    var asset := if operation.IsEntry() then OwnAsset(context.deployment.policy, ShareToken) else context.terms.underlying;
    var entries := [(asset, Economic(quote)), (Ada, receiverTopup)];
    ValueOfMeans(entries);
    SumOfTwo(entries[0], entries[1], a);
    SupplyMintMeans(context.deployment.policy, ShareMint(quote), stateInput.ref, a);
    assert plan.outputs == [plan.outputs[0], plan.outputs[1]];
    OutputSumOfTwo(plan.outputs[0], plan.outputs[1], a);
    assert plan.outputs[0] == StateUpdate(context, successor).value;
    assert Qty(plan.outputs[1].value, a) == EntrySum(entries, a);
    assert MintOf(plan.mint, a) == When(a == AssetId(OwnAsset(context.deployment.policy, ShareToken)), ShareMint(quote));
  }

  lemma OutputSumOfTwo(first: PlannedOutput, second: PlannedOutput, a: Asset)
    ensures OutputSum([first, second], a) == Qty(first.value, a) + Qty(second.value, a)
  {
    assert [first, second] == [first] + [second];
    OutputSumAppend([first], [second], a);
    OutputSumOfOne(first, a);
    OutputSumOfOne(second, a);
  }

  lemma OutputSumOfOne(output: PlannedOutput, a: Asset)
    ensures OutputSum([output], a) == Qty(output.value, a)
  {
    assert [output][1..] == [];
  }

  /** The State output holds exactly its closed custody equation. */
  lemma StateUpdateHolds(context: Context, successor: State, a: Asset)
    requires StateUpdate(context, successor).Ok?
    ensures Qty(StateUpdate(context, successor).value.value, a) == EntrySum(StateEntries(successor, context.terms), a)
  {
    hide IsAddress, StateEntries;
    ValueOfMeans(StateEntries(successor, context.terms));
  }

  lemma StateEntriesMean(state: State, terms: Terms, policy: Hex, a: Asset)
    requires Lower(state.vaultPolicy) == Lower(policy)
    ensures EntrySum(StateEntries(state, terms), a)
      == When(a == Ada, state.storageLovelace)
       + When(a == AssetId(terms.underlying), state.backingAssets + state.accruedFees)
       + When(a == AssetId(OwnAsset(policy, StateToken)), 1)
  {
    var entries := StateEntries(state, terms);
    SumOfThree(entries[0], entries[1], entries[2], a);
    assert AssetId(OwnAsset(state.vaultPolicy, StateToken)) == AssetId(OwnAsset(policy, StateToken));
  }
}
