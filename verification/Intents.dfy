/** What a transaction intent must be, spelled out: roles and redeemers, mints, outputs, references, signers and interval. */
module Intents {
  import opened Results
  import opened Types
  import opened Arithmetic
  import opened HexStrings
  import opened References
  import opened Values
  import opened Planning
  import opened Quotes
  import opened Transitions
  import opened Settlement
  import opened Planners
  import opened Batches
  import opened VaultRuns
  import opened Premises

  predicate Differ(a: OutRef, b: OutRef) {
    Lower(a.txId) != Lower(b.txId) || a.index != b.index
  }

  predicate IsIndex(n: int) {
    0 <= n < 65_536
  }

  /** The fields of one action in range, its outputs apart, its entries in strict ledger order. */
  predicate IsAction(r: Redeemer) {
    match r
    case StateAction(Direct(_, receiver, amount, bound, stateOutput, receiverOutput)) =>
      && IsLocated(receiver.address) && 1 <= amount && IsAmount(amount) && 1 <= bound && IsAmount(bound)
      && IsIndex(stateOutput) && IsIndex(receiverOutput) && stateOutput != receiverOutput
    case StateAction(Batch(stateOutput, entries, rewardKey, rewardOutput)) =>
      && IsIndex(stateOutput) && IsHex(rewardKey, 28) && (rewardOutput.Some? ==> IsIndex(rewardOutput.value))
      && 1 <= |entries| <= 16
      && (forall e <- entries :: IsAt(e.requestRef) && IsIndex(e.claimOutput) && IsAmount(e.claimTopup))
      && (forall i, j :: 0 <= i < j < |entries| ==>
            RefLess(RefId(entries[i].requestRef), RefId(entries[j].requestRef)))
      && AreApart(stateOutput, entries, rewardOutput)
    case StateAction(CollectFees(stateOutput, feeOutput)) => IsIndex(stateOutput) && IsIndex(feeOutput) && stateOutput != feeOutput
    case StateAction(TopUpReserve(topUp, stateOutput)) => 1 <= topUp && IsAmount(topUp) && IsIndex(stateOutput)
    case StateAction(SetPause(flags, stateOutput)) => 0 <= flags < 4 && IsIndex(stateOutput)
    case RequestAction(Acknowledge(ref)) => IsAt(ref)
    case RequestAction(Refund(_, refundOutput)) => IsIndex(refundOutput)
    case ClaimAction(Deliver(entries)) =>
      && 1 <= |entries| <= 16 && (forall e <- entries :: IsAt(e.claimRef) && IsIndex(e.receiverOutput))
      && forall i, j :: 0 <= i < j < |entries| ==>
           RefLess(RefId(entries[i].claimRef), RefId(entries[j].claimRef)) && entries[i].receiverOutput != entries[j].receiverOutput
    case MintAction(Initialize(configOutput, stateOutput)) => IsIndex(configOutput) && IsIndex(stateOutput) && configOutput != stateOutput
    case MintAction(SupplyUpdate(ref)) => IsAt(ref)
  }

  lemma ReferenceMeans(ref: OutRef)
    ensures IsReference(ref) <==> IsAt(ref)
  {
    hide IsHex, ParseHexOf;
    AllHexMeans();
  }

  /** No two outputs that a batch allocates are the same. */
  predicate AreApart(stateOutput: int, entries: seq<SettleEntry>, rewardOutput: Option<int>) {
    && (forall i, j :: 0 <= i < j < |entries| ==> entries[i].claimOutput != entries[j].claimOutput)
    && (forall e <- entries :: e.claimOutput != stateOutput && Some(e.claimOutput) != rewardOutput)
    && rewardOutput != Some(stateOutput)
  }

  lemma BatchIndexAt(stateOutput: int, entries: seq<SettleEntry>, rewardOutput: Option<int>)
    ensures
      var s, n := BatchIndices(stateOutput, entries, rewardOutput), |entries|;
      && |s| == 1 + n + (if rewardOutput.Some? then 1 else 0) && s[0] == stateOutput
      && (forall i :: 1 <= i <= n ==> s[i] == entries[i - 1].claimOutput)
      && (rewardOutput.Some? ==> s[n + 1] == rewardOutput.value)
  {
  }

  lemma DistinctAreApart(stateOutput: int, entries: seq<SettleEntry>, rewardOutput: Option<int>)
    requires Distinct(BatchIndices(stateOutput, entries, rewardOutput))
    ensures AreApart(stateOutput, entries, rewardOutput)
  {
    hide BatchIndices;
    var s, n := BatchIndices(stateOutput, entries, rewardOutput), |entries|;
    BatchIndexAt(stateOutput, entries, rewardOutput);
    forall i, j | 0 <= i < j < n ensures entries[i].claimOutput != entries[j].claimOutput {
      assert s[i + 1] != s[j + 1];
    }
    forall e <- entries ensures e.claimOutput != stateOutput && Some(e.claimOutput) != rewardOutput {
      var i :| 0 <= i < n && entries[i] == e;
      assert s[i + 1] == e.claimOutput && s[0] != s[i + 1];
    }
  }

  lemma ApartAreDistinct(stateOutput: int, entries: seq<SettleEntry>, rewardOutput: Option<int>)
    requires AreApart(stateOutput, entries, rewardOutput)
    ensures Distinct(BatchIndices(stateOutput, entries, rewardOutput))
  {
    hide BatchIndices;
    var s, n := BatchIndices(stateOutput, entries, rewardOutput), |entries|;
    BatchIndexAt(stateOutput, entries, rewardOutput);
    forall i, j | 0 <= i < j < |s| ensures s[i] != s[j] {
      if 0 < i && j <= n {
        assert entries[i - 1].claimOutput != entries[j - 1].claimOutput;
      } else if j <= n {
        assert entries[j - 1] in entries;
      } else if 0 < i {
        assert entries[i - 1] in entries;
      }
    }
  }

  lemma IndicesApart(stateOutput: int, entries: seq<SettleEntry>, rewardOutput: Option<int>)
    ensures Distinct(BatchIndices(stateOutput, entries, rewardOutput)) <==> AreApart(stateOutput, entries, rewardOutput)
  {
    hide BatchIndices, AreApart, Distinct;
    if Distinct(BatchIndices(stateOutput, entries, rewardOutput)) {
      DistinctAreApart(stateOutput, entries, rewardOutput);
    }
    if AreApart(stateOutput, entries, rewardOutput) {
      ApartAreDistinct(stateOutput, entries, rewardOutput);
    }
  }

  lemma ReceiversApart(entries: seq<DeliverEntry>)
    ensures Distinct(ReceiverIndices(entries)) <==>
      forall i, j :: 0 <= i < j < |entries| ==> entries[i].receiverOutput != entries[j].receiverOutput
  {
    var s := ReceiverIndices(entries);
    forall i | 0 <= i < |entries| ensures s[i] == entries[i].receiverOutput {
    }
    if Distinct(s) {
      forall i, j | 0 <= i < j < |entries| ensures entries[i].receiverOutput != entries[j].receiverOutput {
        assert s[i] != s[j];
      }
    }
  }

  lemma BatchMeans(stateOutput: int, entries: seq<SettleEntry>, rewardKey: Hex, rewardOutput: Option<int>)
    ensures
      var r := StateAction(Batch(stateOutput, entries, rewardKey, rewardOutput));
      RedeemerShape(r) <==> IsAction(r)
  {
    hide IsReference, IsAt, IsHex, ParseHexOf, RefLess, RefId, BatchIndices;
    AllHexMeans();
    IndicesApart(stateOutput, entries, rewardOutput);
    forall e: SettleEntry ensures IsReference(e.requestRef) <==> IsAt(e.requestRef) {
      ReferenceMeans(e.requestRef);
    }
  }

  lemma DeliverMeansApart(entries: seq<DeliverEntry>)
    ensures RedeemerShape(ClaimAction(Deliver(entries))) <==> IsAction(ClaimAction(Deliver(entries)))
  {
    hide IsReference, IsAt, RefLess, RefId, ReceiverIndices;
    ReceiversApart(entries);
    forall e: DeliverEntry ensures IsReference(e.claimRef) <==> IsAt(e.claimRef) {
      ReferenceMeans(e.claimRef);
    }
  }

  /** The actions that a plan may carry. */
  lemma ActionMeans(r: Redeemer)
    ensures RedeemerShape(r) <==> IsAction(r)
  {
    hide IsReference, IsAt, RefLess, RefId, IsHex, ParseHexOf, ReceiverIndices, BatchIndices;
    AllHexMeans();
    match r
    case StateAction(Batch(stateOutput, entries, rewardKey, rewardOutput)) => BatchMeans(stateOutput, entries, rewardKey, rewardOutput);
    case ClaimAction(Deliver(entries)) => DeliverMeansApart(entries);
    case RequestAction(Acknowledge(ref)) => ReferenceMeans(ref);
    case MintAction(SupplyUpdate(ref)) => ReferenceMeans(ref);
    case _ =>
  }

  /** The redeemer an input carries fits its role: none for a seed, an action of its own family otherwise. */
  predicate HasItsAction(input: PlanInput) {
    && IsAt(input.ref)
    && match (input.role, input.redeemer)
       case (GenesisSeed, None) => true
       case (StateInput, Some(StateAction(action))) => IsAction(StateAction(action))
       case (RequestInput, Some(RequestAction(action))) => IsAction(RequestAction(action))
       case (ClaimInput, Some(ClaimAction(action))) => IsAction(ClaimAction(action))
       case _ => false
  }

  lemma InputMeans(input: PlanInput)
    ensures IsReference(input.ref) && RoleMatches(input) <==> HasItsAction(input)
  {
    hide IsReference, IsAt, RedeemerShape, IsAction;
    ReferenceMeans(input.ref);
    if input.redeemer.Some? {
      ActionMeans(input.redeemer.value);
    }
  }

  /** Signed, nonzero amounts of this vault's own tokens, under an action of the minting role. */
  predicate IsOwnMint(mint: PlannedMint, policy: Hex) {
    && Matches(mint.policy, policy) && IsAction(MintAction(mint.redeemer))
    && forall name <- mint.assets ::
         IsNamed(Native(mint.policy, name)) && mint.assets[name] != 0 && (IsAmount(mint.assets[name]) || IsAmount(-mint.assets[name]))
  }

  lemma OwnMintMeans(mint: PlannedMint, deployment: Deployment)
    ensures ValidMint(mint, deployment) <==> IsOwnMint(mint, deployment.policy)
  {
    hide SameHex, Matches, IsAsset, IsNamed, RedeemerShape, IsAction;
    MatchMeans(mint.policy, deployment.policy);
    ActionMeans(MintAction(mint.redeemer));
    forall a: Asset ensures IsAsset(a) <==> IsNamed(a) {
      NamedMeans(a);
    }
  }

  lemma OutputMeans(output: PlannedOutput)
    ensures ValidOutput(output) <==> IsCanonical(output.value) && IsLocated(output.address)
  {
    hide IsActual, IsCanonical, IsHex, ParseHexOf;
    AllHexMeans();
    CanonicalMeans(output.value);
  }

  lemma InputsApart(inputs: seq<PlanInput>)
    ensures Distinct(InputRefs(inputs)) <==> forall i, j :: 0 <= i < j < |inputs| ==> Differ(inputs[i].ref, inputs[j].ref)
  {
    hide Lower;
    var refs := InputRefs(inputs);
    if Distinct(refs) {
      forall i, j | 0 <= i < j < |inputs| ensures Differ(inputs[i].ref, inputs[j].ref) {
        assert refs[i] != refs[j];
      }
    }
  }

  lemma ReferencesApart(refs: seq<OutRef>)
    ensures Distinct(Ids(refs, (r: OutRef) => r)) <==> forall i, j :: 0 <= i < j < |refs| ==> Differ(refs[i], refs[j])
  {
    hide Lower;
    var ids := Ids(refs, (r: OutRef) => r);
    if Distinct(ids) {
      forall i, j | 0 <= i < j < |refs| ensures Differ(refs[i], refs[j]) {
        assert ids[i] != ids[j];
      }
    }
  }

  lemma ReadsApart(ref: OutRef, inputs: seq<PlanInput>)
    ensures RefId(ref) !in InputRefs(inputs) <==> forall i :: 0 <= i < |inputs| ==> Differ(ref, inputs[i].ref)
  {
    hide Lower;
    var refs := InputRefs(inputs);
    forall i | 0 <= i < |inputs| ensures refs[i] in refs {
    }
  }

  /** Every input has the action of its role, and no output is spent twice, read twice, or both. */
  predicate UsesApart(plan: Plan) {
    && (forall i :: 0 <= i < |plan.inputs| ==> HasItsAction(plan.inputs[i]))
    && (forall i :: 0 <= i < |plan.referenceInputs| ==> IsAt(plan.referenceInputs[i]))
    && (forall i, j :: 0 <= i < j < |plan.inputs| ==> Differ(plan.inputs[i].ref, plan.inputs[j].ref))
    && (forall i, j :: 0 <= i < j < |plan.referenceInputs| ==> Differ(plan.referenceInputs[i], plan.referenceInputs[j]))
    && forall i, j :: 0 <= i < |plan.referenceInputs| && 0 <= j < |plan.inputs| ==> Differ(plan.referenceInputs[i], plan.inputs[j].ref)
  }

  /** At most 65536 outputs that the ledger can hold, own mints, distinct signers, and a finite interval if any. */
  predicate MakesSound(plan: Plan) {
    && |plan.outputs| <= 65_536
    && (forall o <- plan.outputs :: IsCanonical(o.value) && IsLocated(o.address))
    && (forall m <- plan.mint :: IsOwnMint(m, plan.deployment.policy))
    && (forall k <- plan.requiredSigners :: IsHex(k, 28))
    && (forall i, j :: 0 <= i < j < |plan.requiredSigners| ==> Lower(plan.requiredSigners[i]) != Lower(plan.requiredSigners[j]))
    && (plan.validity.Some? ==> IsInterval(plan.validity.value))
  }

  lemma UsesMean(plan: Plan)
    ensures UsesApart(plan) <==>
      && Distinct(InputRefs(plan.inputs))
      && (forall i :: 0 <= i < |plan.inputs| ==> IsReference(plan.inputs[i].ref) && RoleMatches(plan.inputs[i]))
      && Distinct(Ids(plan.referenceInputs, (r: OutRef) => r))
      && forall i :: 0 <= i < |plan.referenceInputs| ==>
           IsReference(plan.referenceInputs[i]) && RefId(plan.referenceInputs[i]) !in InputRefs(plan.inputs)
  {
    hide IsReference, IsAt, RoleMatches, HasItsAction, RefId, Differ, InputRefs, Ids;
    InputsApart(plan.inputs);
    ReferencesApart(plan.referenceInputs);
    forall i | 0 <= i < |plan.inputs|
      ensures IsReference(plan.inputs[i].ref) && RoleMatches(plan.inputs[i]) <==> HasItsAction(plan.inputs[i])
    {
      InputMeans(plan.inputs[i]);
    }
    forall i | 0 <= i < |plan.referenceInputs|
      ensures IsReference(plan.referenceInputs[i]) <==> IsAt(plan.referenceInputs[i])
      ensures RefId(plan.referenceInputs[i]) !in InputRefs(plan.inputs)
         <==> forall j :: 0 <= j < |plan.inputs| ==> Differ(plan.referenceInputs[i], plan.inputs[j].ref)
    {
      ReferenceMeans(plan.referenceInputs[i]);
      ReadsApart(plan.referenceInputs[i], plan.inputs);
    }
  }

  lemma SoundMeans(plan: Plan)
    ensures MakesSound(plan) <==>
      && |plan.outputs| <= 65_536 && (forall i :: 0 <= i < |plan.outputs| ==> ValidOutput(plan.outputs[i]))
      && (forall i :: 0 <= i < |plan.mint| ==> ValidMint(plan.mint[i], plan.deployment))
      && ValidSigners(plan.requiredSigners) && (plan.validity.Some? ==> FiniteValidity(plan.validity.value).Pass?)
  {
    hide ValidOutput, IsCanonical, IsLocated, ValidMint, IsOwnMint, IsHex, ParseHexOf, Lower;
    AllHexMeans();
    forall i | 0 <= i < |plan.outputs|
      ensures ValidOutput(plan.outputs[i]) <==> IsCanonical(plan.outputs[i].value) && IsLocated(plan.outputs[i].address)
    {
      OutputMeans(plan.outputs[i]);
    }
    forall i | 0 <= i < |plan.mint| ensures ValidMint(plan.mint[i], plan.deployment) <==> IsOwnMint(plan.mint[i], plan.deployment.policy) {
      OwnMintMeans(plan.mint[i], plan.deployment);
    }
  }

  /** An intent is accepted exactly when its inputs and reads are well used and what it makes is sound, and then unchanged. */
  lemma PlanMeans(plan: Plan)
    ensures CreatePlan(plan).Ok? <==> UsesApart(plan) && MakesSound(plan)
    ensures CreatePlan(plan).Ok? ==> CreatePlan(plan).value == plan
  {
    hide UsesApart, MakesSound, ValidSigners, FiniteValidity, ValidMint, ValidOutput, RoleMatches, IsReference, RefId;
    UsesMean(plan);
    SoundMeans(plan);
  }

  lemma AssemblyIsValid(options: BatchOptions, state: State, settled: seq<SettledRequest>)
    requires options.context.deployment.claimScript.Some? && AssembleBatch(options, state, settled).Ok?
    ensures CreatePlan(AssembleBatch(options, state, settled).value.plan).Ok?
  {
    hide BatchSuccessor, BatchOutputs, TotalsOf, Entries, SupplyMint, ValidPlan, RequestInputs;
  }

  lemma BatchIsValid(options: BatchOptions, requests: seq<BatchRequest>)
    requires BuildBatch(options, requests).Ok?
    ensures CreatePlan(BuildBatch(options, requests).value.plan).Ok?
  {
    hide BuildBatch, AssembleBatch, CreatePlan, ResolveBatch, ResolveState, SortedReferences, Settlements;
    var state, sorted := BatchParts(options, requests);
    AssemblyIsValid(options, state, BuildBatch(options, requests).value.settled);
  }

  lemma DirectIsValid(
    context: Context, input: ProtectedInput, operation: Operation, amount: int, bound: int, receiver: Destination, topup: int)
    requires BuildDirectPlan(context, input, operation, amount, bound, receiver, topup).Ok?
    ensures CreatePlan(BuildDirectPlan(context, input, operation, amount, bound, receiver, topup).value.plan).Ok?
  {
    hide ResolveState, Transition, StateUpdate, ValueOf, Output, ValidPlan, SupplyMint, OwnAsset;
  }

  lemma StatePlanIsValid(w: World, context: Context, step: Step)
    requires w.stateRef in w.utxos && StatePlanOf(w, context, step).Ok?
    ensures CreatePlan(StatePlanOf(w, context, step).value.plan).Ok?
  {
    hide ResolveState, StateUpdate, ValueOf, Output, ValidPlan, ValidEconomics, BuildBatch, BuildDirectPlan;
    var input := StateEvidence(w);
    match step
    case DirectStep(operation, amount, bound, receiver, topup) => DirectIsValid(context, input, operation, amount, bound, receiver, topup);
    case BatchStep(rewardKey, validity, rewardTopup, requests) =>
      BatchIsValid(BatchOptions(context, input, rewardKey, validity, rewardTopup), requests);
    case _ =>
  }

  lemma RefundIsValid(deployment: Deployment, source: ProtectedInput, mode: RefundMode, validity: TimeBounds)
    requires RefundPlan(deployment, source, mode, validity).Ok?
    ensures CreatePlan(RefundPlan(deployment, source, mode, validity).value).Ok?
  {
    hide SameHex, Output, ValidPlan, RecoveryOf, AssertProtectedInput, FiniteValidity, AssertFamily, OwnAsset, AssetId, Qty;
  }

  lemma DeliveryIsValid(deployment: Deployment, claims: seq<ProtectedInput>)
    requires BuildDeliverPlan(deployment, claims).Ok?
    ensures CreatePlan(BuildDeliverPlan(deployment, claims).value).Ok?
  {
    hide DeliverOutputs, SortedReferences, ValidPlan, AssertFamily, DeliverInputs, DeliverEntries;
  }

  lemma RequestIsValid(context: Context, request: Request)
    requires BuildRequestPlan(context, request).Ok?
    ensures CreatePlan(BuildRequestPlan(context, request).value).Ok?
  {
    hide AssertContext, RequestOf, SameHex, RequestValue, Output, ValidPlan, Bit;
  }

  lemma SidePlanIsValid(context: Context, step: Step)
    requires SidePlanOf(context, step).Ok?
    ensures CreatePlan(SidePlanOf(context, step).value).Ok?
  {
    hide BuildRequestPlan, RefundPlan, BuildDeliverPlan, ValidPlan;
    match step
    case RequestStep(request) => RequestIsValid(context, request);
    case RefundStep(source, mode, validity) => RefundIsValid(context.deployment, source, mode, validity);
    case DeliverStep(claims) => DeliveryIsValid(context.deployment, claims);
    case _ =>
  }

  /** Whatever any planner makes is such an intent. */
  lemma PlansAreIntents(w: World, context: Context, step: Step, plan: Plan)
    requires w.stateRef in w.utxos
    requires
      || (StatePlanOf(w, context, step).Ok? && plan == StatePlanOf(w, context, step).value.plan)
      || SidePlanOf(context, step) == Ok(plan)
    ensures UsesApart(plan) && MakesSound(plan)
  {
    hide StatePlanOf, SidePlanOf, CreatePlan, UsesApart, MakesSound;
    PlanMeans(plan);
    if StatePlanOf(w, context, step).Ok? && plan == StatePlanOf(w, context, step).value.plan {
      StatePlanIsValid(w, context, step);
    } else {
      SidePlanIsValid(context, step);
    }
  }
}
