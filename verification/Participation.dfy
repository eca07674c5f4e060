/** What a participant can rely on: a planned Request settles, delivers or refunds as it says, whichever planner acts on it. */
module Participation {
  import opened Results
  import opened Types
  import opened Arithmetic
  import opened HexStrings
  import opened References
  import opened Values
  import opened Quotes
  import opened Transitions
  import opened Planning
  import opened Settlement
  import opened Planners
  import opened Batches
  import opened PlannedCustody

  /** The Request that a creation plan puts in its first output, once a transaction has given it an identity. */
  function CreatedSource(plan: Plan, policy: Hex, txId: Hex, index: int): (source: ProtectedInput)
    requires |plan.outputs| > 0 && plan.outputs[0].datum.Some?
    ensures source.ref == OutRef(txId, index)
  {
    ProtectedInput(OutRef(txId, index), Enterprise(Script, policy), plan.outputs[0].datum.value, plan.outputs[0].value)
  }

  /** A created Request holds exactly its escrow. */
  lemma CreatedRequestParts(context: Context, request: Request)
    requires BuildRequestPlan(context, request).Ok?
    ensures
      var Context(deployment, terms, _) := context;
      var plan := BuildRequestPlan(context, request).value;
      && ConsistentContext(context, Ctvs2) && RequestOf(RequestDatum(request)) == Ok(request)
      && SameHex(request.recovery.vaultPolicy, deployment.policy) && SameHex(request.body.termsHash, deployment.termsHash)
      && |plan.outputs| == 1 && plan.outputs[0].datum == Some(RequestDatum(request)) && plan.mint == [] && plan.inputs == []
      && RequestValue(request, terms).Ok? && IsCustody(RequestValue(request, terms).value)
      && Output(RequestOutput, ScriptDestination(deployment.policy), RequestValue(request, terms).value, Some(RequestDatum(request)))
         == Ok(plan.outputs[0])
      && AssertSameValue(plan.outputs[0].value, RequestValue(request, terms).value).Pass?
      && IsActual(plan.outputs[0].value)
  {
    hide ConsistentContext, RecoveryShape, BodyShape, SameHex, RequestEntries, ValueOf, ValidPlan, IsAddress, AssertSameValue;
    ValueOfMeans(RequestEntries(request, context.terms));
    SameValueIsExact(BuildRequestPlan(context, request).value.outputs[0].value, RequestValue(request, context.terms).value);
  }

  lemma CreatedRequestAddress(context: Context, request: Request)
    requires BuildRequestPlan(context, request).Ok?
    ensures |BuildRequestPlan(context, request).value.outputs| == 1
    ensures BuildRequestPlan(context, request).value.outputs[0].address == Enterprise(Script, context.deployment.policy)
  {
    hide ConsistentContext, RequestOf, SameHex, RequestValue, ValidPlan;
  }

  /**
   * What the creation planner makes, the batch planner accepts: a created Request is eligible in every batch of its
   * deployment exactly until its deadline.
   */
  lemma CreatedRequestIsEligible(context: Context, request: Request, txId: Hex, index: int, claimTopup: int, upperPosixMs: int)
    requires BuildRequestPlan(context, request).Ok?
    requires ParseHexOf(txId, 32).Ok? && IsOutputIndex(index) && IsQuantity(claimTopup)
    ensures
      var plan := BuildRequestPlan(context, request).value;
      && |plan.outputs| > 0 && plan.outputs[0].datum.Some?
      && var source := CreatedSource(plan, context.deployment.policy, txId, index);
         var eligible := EligibleRequest(BatchRequest(source, claimTopup), context.deployment, context.terms, upperPosixMs);
         && (eligible.Ok? <==> upperPosixMs <= request.recovery.deadlinePosixMs)
         && (eligible.Ok? ==> eligible.value == request)
  {
    hide BuildRequestPlan, ConsistentContext, RequestOf, SameHex, RequestValue, AssertSameValue, Output, ParseHexOf;
    CreatedRequestParts(context, request);
  }

  /** The escrowed asset is never the vault's STATE or ID token: the underlying is foreign, and shares have their own name. */
  lemma EscrowIsForeign(deployment: Deployment, terms: Terms, request: Request, token: TokenName)
    requires token != ShareToken && SameHex(request.recovery.vaultPolicy, deployment.policy)
    requires terms.underlying.Native? ==> !SameHex(terms.underlying.policy, deployment.policy)
    requires ParseHex(deployment.policy).Ok? && (terms.underlying.Native? ==> ParseHex(terms.underlying.policy).Ok?)
    ensures AssetId(EscrowAsset(request, terms)) != AssetId(OwnAsset(deployment.policy, token))
    ensures AssetId(OwnAsset(deployment.policy, token)).Native?
  {
    hide ParseHex, Lower, TokenHex;
    OwnAssetId(deployment.policy, token);
    OwnAssetId(request.recovery.vaultPolicy, ShareToken);
    TokenNamesAreCanonical(token, ShareToken);
  }

  lemma ContextUnderlying(context: Context)
    requires ConsistentContext(context, Ctvs2)
    ensures
      var underlying, policy := context.terms.underlying, context.deployment.policy;
      && AssertFamily(context.deployment, Ctvs2).Pass?
      && ParseHex(policy).Ok? && (underlying.Native? ==> ParseHex(underlying.policy).Ok? && !SameHex(underlying.policy, policy))
  {
    hide ParseHex, Lower, FamilyModes, SameHex, IsAddress, IsKeySet;
  }

  /** Escrow of a consistent vault never holds its STATE or ID token. */
  lemma EscrowSparesIdentity(context: Context, request: Request, token: TokenName)
    requires BuildRequestPlan(context, request).Ok? && token != ShareToken
    ensures |BuildRequestPlan(context, request).value.outputs| > 0
    ensures Qty(BuildRequestPlan(context, request).value.outputs[0].value, AssetId(OwnAsset(context.deployment.policy, token))) == 0
  {
    hide BuildRequestPlan, ConsistentContext, SameHex, RequestOf, RequestValue, AssertSameValue, Output, ParseHex, EscrowAsset, OwnAsset,
      IsActual, Qty, EntrySum;
    var own := AssetId(OwnAsset(context.deployment.policy, token));
    CreatedRequestParts(context, request);
    ContextUnderlying(context);
    EscrowIsForeign(context.deployment, context.terms, request, token);
    var entries, value := RequestEntries(request, context.terms), BuildRequestPlan(context, request).value.outputs[0].value;
    EscrowIsEntries(value, request, context.terms, own);
    SumOfTwo(entries[0], entries[1], own);
  }

  lemma EscrowIsEntries(value: Value, request: Request, terms: Terms, a: Asset)
    requires RequestValue(request, terms).Ok? && AssertSameValue(value, RequestValue(request, terms).value).Pass?
    ensures Qty(value, a) == EntrySum(RequestEntries(request, terms), a)
  {
    hide RequestEntries, AssertSameValue;
    ValueOfMeans(RequestEntries(request, terms));
    SameValueIsExact(value, RequestValue(request, terms).value);
  }

  /** Which refunds a consistent deployment plans for a well-formed source. */
  lemma RefundExists(deployment: Deployment, source: ProtectedInput, recovery: Recovery, mode: RefundMode, validity: TimeBounds)
    requires AssertFamily(deployment, Ctvs2).Pass? && AssertProtectedInput(source, deployment.policy).Pass?
    requires RecoveryOf(source.datum) == Ok(recovery) && RecoveryShape(recovery) && SameHex(recovery.vaultPolicy, deployment.policy)
    requires Qty(source.value, AssetId(OwnAsset(deployment.policy, StateToken))) == 0
    requires Qty(source.value, AssetId(OwnAsset(deployment.policy, IdToken))) == 0
    ensures
      var r := RefundPlan(deployment, source, mode, validity);
      r.Ok? <==> FiniteValidity(validity).Pass? && (mode.Expiry? ==> recovery.deadlinePosixMs <= validity.lowerPosixMs)
  {
    hide RecoveryOf, SameHex, OwnAsset, AssetId, Qty, AssertFamily, FiniteValidity, IsAddress, ParseHexOf, Ids;
  }

  /**
   * Escrow is never stuck: for a created Request, cancellation in any finite interval and expiry in exactly the
   * finite intervals from its deadline on are planned, whatever the State of the vault.
   */
  lemma CreatedRequestIsRefundable(
    context: Context, request: Request, txId: Hex, index: int, mode: RefundMode, validity: TimeBounds)
    requires BuildRequestPlan(context, request).Ok? && ParseHexOf(txId, 32).Ok? && IsOutputIndex(index)
    ensures
      var plan := BuildRequestPlan(context, request).value;
      && |plan.outputs| > 0 && plan.outputs[0].datum.Some?
      && var source := CreatedSource(plan, context.deployment.policy, txId, index);
         var refund := RefundPlan(context.deployment, source, mode, validity);
         && (refund.Ok? <==>
               FiniteValidity(validity).Pass? && (mode.Expiry? ==> request.recovery.deadlinePosixMs <= validity.lowerPosixMs))
         && (refund.Ok? ==>
               && |refund.value.outputs| == 1 && refund.value.outputs[0].address == request.recovery.refund.address
               && forall a :: Qty(refund.value.outputs[0].value, a) == EntrySum(RequestEntries(request, context.terms), a))
  {
    hide BuildRequestPlan, ConsistentContext, SameHex, RequestValue, AssertSameValue, Output, OwnAsset, AssetId, Qty, RequestEntries,
      RefundPlan, FiniteValidity, RecoveryShape, BodyShape, EntrySum;
    CreatedRequestParts(context, request);
    ContextUnderlying(context);
    EscrowSparesIdentity(context, request, StateToken);
    EscrowSparesIdentity(context, request, IdToken);
    var source := CreatedSource(BuildRequestPlan(context, request).value, context.deployment.policy, txId, index);
    RefundExists(context.deployment, source, request.recovery, mode, validity);
    var refund := RefundPlan(context.deployment, source, mode, validity);
    if refund.Ok? {
      RefundConserves(context.deployment, source, mode, validity, refund.value, request.recovery, Ada);
      forall a ensures Qty(refund.value.outputs[0].value, a) == EntrySum(RequestEntries(request, context.terms), a) {
        RefundConserves(context.deployment, source, mode, validity, refund.value, request.recovery, a);
        OutputSumOfOne(refund.value.outputs[0], a);
        EscrowIsEntries(source.value, request, context.terms, a);
      }
    }
  }

  /**
   * What a settlement owes its requester: the receiver they named, at least the minimum they set, in the asset of the
   * other side, before their deadline, for exactly what they offered; and all their ADA but the settler fee.
   */
  lemma SettlementHonoursRequest(
    candidate: BatchRequest, deployment: Deployment, state: State, stateRef: OutRef, terms: Terms, upperPosixMs: int, s: SettledRequest)
    requires SettleRequest(candidate, deployment, state, stateRef, terms, upperPosixMs) == Ok(s)
    ensures
      var request, claim := s.request, s.claim;
      var deposit := request.body.kind.DepositRequest?;
      && candidate.input.datum == RequestDatum(request) && upperPosixMs <= request.recovery.deadlinePosixMs
      && claim.receiver == request.body.receiver && request.body.minimumOutput <= claim.economicQuantity
      && claim.asset == (if deposit then OwnAsset(deployment.policy, ShareToken) else terms.underlying)
      && (if deposit then s.quote.grossAssets else s.quote.shares) == request.body.offered
      && claim.carriedLovelace + request.body.settlerFee
         == request.body.storageLovelace + request.body.executionBudget + candidate.claimTopup
      && 0 < request.body.storageLovelace <= claim.carriedLovelace
  {
    hide AssertProtectedInput, SameHex, RequestValue, AssertSameValue, RecoveryShape, IsAddress, ParseHexOf, AssertEnabled;
  }

  /** The i-th Claim of a batch, once a transaction has given it an identity. */
  function ClaimSource(batch: BatchPlan, i: nat, claimScript: Hex, txId: Hex): ProtectedInput
    requires i + 1 < |batch.plan.outputs| && i < |batch.settled|
  {
    ProtectedInput(OutRef(txId, i + 1), Enterprise(Script, claimScript), ClaimDatum(batch.settled[i].claim), batch.plan.outputs[i + 1].value)
  }

  lemma ExactClaimDelivers(source: ProtectedInput, claim: Claim, claimScript: Hex)
    requires IsReference(source.ref) && source.address == Enterprise(Script, claimScript) && source.datum == ClaimDatum(claim)
    requires ClaimShape(claim) && ClaimValue(claim).Ok? && AssertSameValue(source.value, ClaimValue(claim).value).Pass?
    ensures
      var r := DeliverOutput(source, claimScript);
      && r.Ok? && r.value.address == claim.receiver.address
      && forall a :: Qty(r.value.value, a) == EntrySum(ClaimEntries(claim), a)
  {
    hide IsReference, ClaimEntries, AddressId;
    ValueOfMeans(ClaimEntries(claim));
    SameValueIsExact(source.value, ClaimValue(claim).value);
  }

  lemma BatchIsSmall(options: BatchOptions, requests: seq<BatchRequest>)
    requires BuildBatch(options, requests).Ok?
    ensures |BuildBatch(options, requests).value.settled| == |requests| <= 16
  {
    hide BuildBatch, SettleRequest, ResolveState, ResolveBatch, AssembleBatch, TotalsOf, Settlements;
    var state, sorted := BatchParts(options, requests);
    SortedReferencesIsCanonical(requests, requests, RequestRef);
    assert |sorted| == |multiset(sorted)|;
    SettlementsAreIndividual(sorted, options.context.deployment, state, options.stateInput.ref, options.context.terms,
      options.validity.upperPosixMs);
  }

  /** What the batch planner owes, the delivery planner pays: every planned Claim is deliverable, whole, to its requester's receiver. */
  lemma PlannedClaimDelivers(options: BatchOptions, requests: seq<BatchRequest>, i: nat, txId: Hex)
    requires BuildBatch(options, requests).Ok? && i < |BuildBatch(options, requests).value.settled|
    requires ParseHexOf(txId, 32).Ok?
    ensures
      var batch := BuildBatch(options, requests).value;
      && options.context.deployment.claimScript.Some? && i + 1 < |batch.plan.outputs|
      && var claimScript := options.context.deployment.claimScript.value;
         var r := DeliverOutput(ClaimSource(batch, i, claimScript, txId), claimScript);
         && batch.plan.outputs[i + 1].datum == Some(ClaimDatum(batch.settled[i].claim))
         && r.Ok? && r.value.address == batch.settled[i].claim.receiver.address
         && forall a :: Qty(r.value.value, a) == EntrySum(ClaimEntries(batch.settled[i].claim), a)
  {
    hide BuildBatch, ClaimShape, ClaimValue, AssertSameValue, StateValue, DeliverOutput, Qty, EntrySum, ClaimEntries, ClaimNames, ParseHexOf;
    var batch := BuildBatch(options, requests).value;
    BatchPlansExactly(options, requests);
    BatchIsSmall(options, requests);
    assert PlansClaim(batch.settled[i], batch.plan.outputs[i + 1], options.context.deployment);
    var claimScript := options.context.deployment.claimScript.value;
    ExactClaimDelivers(ClaimSource(batch, i, claimScript, txId), batch.settled[i].claim, claimScript);
  }

  lemma {:induction false} DeliverOutputsExist(sources: seq<ProtectedInput>, claimScript: Hex)
    ensures DeliverOutputs(sources, claimScript).Ok? <==> forall i :: 0 <= i < |sources| ==> DeliverOutput(sources[i], claimScript).Ok?
  {
    hide DeliverOutput;
    if sources != [] {
      DeliverOutputsExist(sources[..|sources| - 1], claimScript);
    }
  }

  lemma {:induction false} DeliveredOutputsAreValid(sources: seq<ProtectedInput>, claimScript: Hex)
    requires DeliverOutputs(sources, claimScript).Ok?
    ensures forall o <- DeliverOutputs(sources, claimScript).value :: ValidOutput(o)
  {
    hide DeliverOutput, ValidOutput;
    if sources != [] {
      var source := sources[|sources| - 1];
      DeliveredOutputsAreValid(sources[..|sources| - 1], claimScript);
      DeliveredOutputIsValid(source, claimScript);
    }
  }

  lemma DeliveredOutputIsValid(source: ProtectedInput, claimScript: Hex)
    requires DeliverOutput(source, claimScript).Ok?
    ensures ValidOutput(DeliverOutput(source, claimScript).value)
  {
    hide ValidOutput, Output, AssertProtectedInput, ClaimShape;
    OutputIsValid(DeliveryOutput, source.datum.claim.receiver, source.value, None);
  }

  /** One entry for each Claim, in reference order, with the index of its own output. */
  lemma DeliveryIsShaped(sorted: seq<ProtectedInput>)
    requires SortableReferences(sorted, SourceRef) && Sorted(sorted, SourceRef)
    ensures RedeemerShape(ClaimAction(Deliver(DeliverEntries(sorted))))
  {
    hide IsReference, RefId, RefLess;
    var entries := DeliverEntries(sorted);
    forall i, j | 0 <= i < j < |entries| ensures RefLess(RefId(EntryClaim(entries[i])), RefId(EntryClaim(entries[j]))) {
      assert RefLess(RefId(SourceRef(sorted[i])), RefId(SourceRef(sorted[j])));
    }
    forall i | 0 <= i < |entries| ensures IsDeliverEntry(entries[i]) {
      assert IsReference(SourceRef(sorted[i]));
    }
  }

  lemma DeliverPlanIsValid(deployment: Deployment, sorted: seq<ProtectedInput>, outputs: seq<PlannedOutput>)
    requires SortableReferences(sorted, SourceRef) && Sorted(sorted, SourceRef) && |outputs| == |sorted|
    requires forall o <- outputs :: ValidOutput(o)
    ensures ValidPlan(Plan(
      DeliverOperation, deployment, DeliverInputs(sorted, Deliver(DeliverEntries(sorted))), [], outputs, [], [], None))
  {
    hide IsReference, RefId, DeliverEntries, RedeemerShape, ValidOutput, Sorted;
    var inputs := DeliverInputs(sorted, Deliver(DeliverEntries(sorted)));
    DeliveryIsShaped(sorted);
    assert InputRefs(inputs) == Ids(sorted, SourceRef);
  }

  /** Any 1 to 16 distinct Claims whose custody is well formed can be delivered together. */
  lemma DeliveryExists(deployment: Deployment, claims: seq<ProtectedInput>)
    ensures BuildDeliverPlan(deployment, claims).Ok? <==>
      && SortableReferences(claims, SourceRef) && AssertFamily(deployment, Ctvs2).Pass?
      && forall c <- claims :: DeliverOutput(c, deployment.claimScript.value).Ok?
  {
    hide DeliverOutput, SortItems, ValidPlan, ValidOutput, Sorted;
    if SortableReferences(claims, SourceRef) && AssertFamily(deployment, Ctvs2).Pass? {
      SortedReferencesIsCanonical(claims, claims, SourceRef);
      var sorted := SortedReferences(claims, SourceRef).value;
      forall c ensures c in sorted <==> c in claims {
        assert c in multiset(sorted) <==> c in multiset(claims);
      }
      DeliverOutputsExist(sorted, deployment.claimScript.value);
      SortableIsUnordered(claims, sorted, SourceRef);
      if DeliverOutputs(sorted, deployment.claimScript.value).Ok? {
        DeliveredOutputsAreValid(sorted, deployment.claimScript.value);
        DeliverPlanIsValid(deployment, sorted, DeliverOutputs(sorted, deployment.claimScript.value).value);
      }
    }
  }

  /** Every settlement of a batch honours its Request. */
  lemma BatchHonoursRequests(options: BatchOptions, requests: seq<BatchRequest>, s: SettledRequest)
    requires BuildBatch(options, requests).Ok? && s in BuildBatch(options, requests).value.settled
    ensures s.claim.receiver == s.request.body.receiver && s.request.body.minimumOutput <= s.claim.economicQuantity
    ensures s.source.datum == RequestDatum(s.request) && options.validity.upperPosixMs <= s.request.recovery.deadlinePosixMs
    ensures 0 < s.request.body.storageLovelace <= s.claim.carriedLovelace
  {
    hide BuildBatch, AssembleBatch, Settlements, SettleRequest, ResolveBatch, ResolveState, SortedReferences, TotalsOf, SettlementQuote;
    var state, sorted := BatchParts(options, requests);
    BatchRequestsAreSettled(options, state, sorted, BuildBatch(options, requests).value.settled);
    SettlementHonoursRequest(BatchRequest(s.source, s.claimTopup), options.context.deployment, state, options.stateInput.ref,
      options.context.terms, options.validity.upperPosixMs, s);
  }

  /**
   * From escrow to payment. Every Request of a batch is settled before its deadline, and delivering its Claim pays the
   * receiver it named at least the minimum it set.
   */
  lemma BatchPaysReceivers(options: BatchOptions, requests: seq<BatchRequest>, i: nat, txId: Hex)
    requires BuildBatch(options, requests).Ok? && i < |BuildBatch(options, requests).value.settled|
    requires ParseHexOf(txId, 32).Ok?
    ensures
      var batch := BuildBatch(options, requests).value;
      var s := batch.settled[i];
      && options.context.deployment.claimScript.Some? && i + 1 < |batch.plan.outputs|
      && var claimScript := options.context.deployment.claimScript.value;
         var paid := DeliverOutput(ClaimSource(batch, i, claimScript, txId), claimScript);
         && paid.Ok? && paid.value.address == s.request.body.receiver.address
         && s.request.body.minimumOutput <= Qty(paid.value.value, AssetId(s.claim.asset))
         && options.validity.upperPosixMs <= s.request.recovery.deadlinePosixMs
  {
    hide BuildBatch, DeliverOutput, Qty, EntrySum, AssetId, ParseHexOf, ClaimShape, ClaimValue;
    var s := BuildBatch(options, requests).value.settled[i];
    PlannedClaimDelivers(options, requests, i, txId);
    BatchHonoursRequests(options, requests, s);
    var entries := ClaimEntries(s.claim);
    SumOfTwo(entries[0], entries[1], AssetId(s.claim.asset));
  }

  /** The two sides of an operation: the side the user fixed is exact, and the other is no worse than the bound they set. */
  predicate Approved(quote: Quote, amount: int, bound: int) {
    match quote.operation
    case Deposit => quote.grossAssets == amount && bound <= quote.shares
    case Mint => quote.shares == amount && quote.grossAssets <= bound
    case Withdraw => quote.netAssets == amount && quote.shares <= bound
    case Redeem => quote.shares == amount && bound <= quote.netAssets
  }

  lemma TransitionIsApproved(operation: Operation, amount: int, bound: int, state: State, terms: Terms)
    requires Transition(operation, amount, bound, state, terms, false).Ok?
    ensures Approved(Transition(operation, amount, bound, state, terms, false).value.quote, amount, bound)
  {
    hide CeilDiv, QuoteInRange;
  }

  /** A direct plan pays the named receiver, and no one else, exactly the user's side of an approved quote. */
  lemma DirectHonoursUser(
    context: Context, stateInput: ProtectedInput, operation: Operation, amount: int, bound: int, receiver: Destination,
    receiverTopup: int, plan: Plan, successor: State, state: State, quote: Quote, a: Asset)
    requires BuildDirectPlan(context, stateInput, operation, amount, bound, receiver, receiverTopup) == Ok(StatePlan(plan, successor))
    requires ResolveState(context, stateInput, Ctvs1) == Ok(state) && Preview(operation, amount, state, context.terms) == Ok(quote)
    ensures quote.operation == operation && Approved(quote, amount, bound)
    ensures |plan.outputs| == 2 && plan.outputs[0].address == Enterprise(Script, context.deployment.policy)
    ensures plan.outputs[1].address == receiver.address
    ensures
      Qty(plan.outputs[1].value, a)
      == When(a == Ada, receiverTopup)
       + (if operation.IsEntry() then When(a == AssetId(OwnAsset(context.deployment.policy, ShareToken)), quote.shares)
          else When(a == AssetId(context.terms.underlying), quote.netAssets))
  {
    hide ValidPlan, ResolveState, IsAddress, Preview, WithinBound, OwnAsset, SupplyMint, StateUpdate, ValidEconomics, Approved;
    TransitionIsApproved(operation, amount, bound, state, context.terms);
    StateUpdateAddress(context, successor);
    var asset := if operation.IsEntry() then OwnAsset(context.deployment.policy, ShareToken) else context.terms.underlying;
    var entries := [(asset, Economic(quote)), (Ada, receiverTopup)];
    ValueOfMeans(entries);
    SumOfTwo(entries[0], entries[1], a);
    assert AssetId(Ada) == Ada;
    assert Qty(plan.outputs[1].value, a) == EntrySum(entries, a);
  }

  lemma StateUpdateAddress(context: Context, successor: State)
    requires StateUpdate(context, successor).Ok?
    ensures StateUpdate(context, successor).value.address == Enterprise(Script, context.deployment.policy)
    ensures StateUpdate(context, successor).value.datum == Some(StateDatum(successor))
  {
    hide StateValue;
  }

  /** Collected fees are paid, all of them, to the destination fixed in the Terms, and nothing else of the State moves. */
  lemma FeesReachTheirDestination(
    family: Family, context: Context, stateInput: ProtectedInput, receiverTopup: int, plan: Plan, successor: State, state: State, a: Asset)
    requires CreateCollectFeesPlan(family, context, stateInput, receiverTopup) == Ok(StatePlan(plan, successor))
    requires ResolveState(context, stateInput, family) == Ok(state)
    ensures |plan.outputs| == 2 && plan.outputs[1].address == context.terms.feeDestination.address
    ensures Qty(plan.outputs[1].value, a)
         == When(a == AssetId(context.terms.underlying), state.accruedFees) + When(a == Ada, receiverTopup)
    ensures successor == state.(sequence := state.sequence + 1, accruedFees := 0)
    ensures Qty(stateInput.value, a) + When(a == Ada, receiverTopup) == OutputSum(plan.outputs, a)
  {
    hide ValidPlan, ResolveState, IsAddress, StateUpdate, ValidEconomics, OwnAsset, AssetId, MintOf;
    var entries := [(context.terms.underlying, state.accruedFees), (Ada, receiverTopup)];
    ValueOfMeans(entries);
    SumOfTwo(entries[0], entries[1], a);
    AdaIsItself();
    assert Qty(plan.outputs[1].value, a) == EntrySum(entries, a);
    ResolvedStateHolds(context, stateInput, family);
    StateUpdateHolds(context, successor, a);
    StateEntriesMean(state, context.terms, context.deployment.policy, a);
    StateEntriesMean(successor, context.terms, context.deployment.policy, a);
    assert plan.outputs == [plan.outputs[0], plan.outputs[1]];
    OutputSumOfTwo(plan.outputs[0], plan.outputs[1], a);
  }
}
