/** When a State plan exists: the exact conditions of batches, direct operations and maintenance. */
module Existence {
  import opened Results
  import opened Types
  import opened Arithmetic
  import opened HexStrings
  import opened References
  import opened Values
  import opened Quotes
  import opened Transitions
  import opened Planning
  import opened Settlement
  import opened Planners
  import opened Batches
  import opened Premises
  import opened Intents
  import opened Conduct

  /** Room for what a Claim carries and owes, together when both are ADA. */
  predicate HasRoom(c: Claim) {
    IsAmount(c.carriedLovelace) && (c.asset == Ada ==> IsAmount(c.economicQuantity + c.carriedLovelace))
  }

  /** Everything sound about a settlement's Claim but the room in it. */
  predicate IsSoundBut(c: Claim) {
    && IsHex(c.vaultPolicy, 28) && IsHex(c.termsHash, 32) && IsAt(c.requestRef) && IsAt(c.stateRef)
    && IsLocated(c.receiver.address) && IsNamed(c.asset)
    && 1 <= c.economicQuantity && IsAmount(c.economicQuantity) && 1 <= c.carriedLovelace
  }

  lemma PricedIsPositive(body: RequestBody, state: State, terms: Terms)
    requires SettlementQuote(body, state, terms).Ok?
    ensures
      var quote := SettlementQuote(body, state, terms).value;
      1 <= Economic(quote) && IsAmount(Economic(quote)) && quote.operation == OperationOf(body.kind)
  {
    hide AssertEnabled, ValidEconomics, CeilDiv, FeeTotal, FeeRaw;
  }

  lemma SettledIsSoundBut(
    candidate: BatchRequest, deployment: Deployment, state: State, stateRef: OutRef, terms: Terms, upperPosixMs: int)
    requires SettleRequest(candidate, deployment, state, stateRef, terms, upperPosixMs).Ok?
    requires IsHex(deployment.policy, 28) && IsHex(deployment.termsHash, 32) && IsAt(stateRef) && IsNamed(terms.underlying)
    ensures
      var s := SettleRequest(candidate, deployment, state, stateRef, terms, upperPosixMs).value;
      && IsSoundBut(s.claim) && s.source == candidate.input && IsAt(s.source.ref)
      && s.claimTopup == candidate.claimTopup && IsAmount(s.claimTopup) && HasFlows(s)
  {
    hide SettlementQuote, EligibleRequest, IsHex, IsNamed, IsCanonical, Matches, Offered, Qty, Lower, OwnAsset;
    SettledHasFlows(candidate, deployment, state, stateRef, terms, upperPosixMs);
    var request := EligibleRequest(candidate, deployment, terms, upperPosixMs).value;
    EligibleMeans(candidate, deployment, terms, upperPosixMs, request);
    PricedIsPositive(request.body, state, terms);
    NameIsNamed(deployment.policy, ShareToken);
  }

  lemma RoomMakesClaim(c: Claim)
    requires IsSoundBut(c)
    ensures ClaimShape(c) <==> HasRoom(c)
    ensures HasRoom(c) ==> ClaimValue(c).Ok? && IsActual(ClaimValue(c).value)
  {
    hide IsHex, IsNamed, ValueOf, EntrySum, ClaimShape;
    ClaimMeans(c);
    if HasRoom(c) {
      var entries := ClaimEntries(c);
      AdaIsNamed();
      forall a ensures EntrySum(entries, a) <= 9_223_372_036_854_775_807 {
        SumOfTwo(entries[0], entries[1], a);
        OnlyAdaIsAda(c.asset);
      }
      BoundedIsBuilt(entries);
      ValueOfMeans(entries);
      CustodyIsBounded(ValueOf(entries).value);
    }
  }

  lemma OnlyAdaIsAda(asset: Asset)
    ensures AssetId(asset) == Ada <==> asset == Ada
  {
  }

  /** Claim outputs exist exactly when every Claim has room. */
  lemma {:induction false} ClaimsHaveRoom(settled: seq<SettledRequest>, claimScript: Hex)
    requires IsHex(claimScript, 28) && forall i :: 0 <= i < |settled| ==> IsSoundBut(settled[i].claim)
    ensures ClaimOutputs(settled, claimScript).Ok? <==> forall i :: 0 <= i < |settled| ==> HasRoom(settled[i].claim)
    ensures ClaimOutputs(settled, claimScript).Ok? ==>
      forall i :: 0 <= i < |settled| ==> ValidOutput(ClaimOutputs(settled, claimScript).value[i])
  {
    hide IsHex, ClaimShape, ClaimValue, HasRoom, IsSoundBut, IsActual, ValidOutput;
    if settled != [] {
      ClaimsHaveRoom(settled[..|settled| - 1], claimScript);
      var claim := settled[|settled| - 1].claim;
      RoomMakesClaim(claim);
      if HasRoom(claim) {
        OutputExists(ClaimOutput, claimScript, ClaimValue(claim).value, ClaimDatum(claim));
      }
    }
  }

  lemma OutputExists(role: OutputRole, script: Hex, value: Value, datum: Datum)
    requires IsHex(script, 28) && IsActual(value)
    ensures
      var output := Output(role, ScriptDestination(script), value, Some(datum));
      output.Ok? && ValidOutput(output.value)
  {
    hide IsHex, ParseHexOf, IsActual;
    AllHexMeans();
    OutputIsValid(role, ScriptDestination(script), value, Some(datum));
  }

  /** The State that a batch leads to. */
  function BatchState(state: State, settled: seq<SettledRequest>): State {
    state.(
      sequence := state.sequence + 1,
      backingAssets := state.backingAssets + FlowSum(settled, DepositRequest, Net) - FlowSum(settled, RedeemRequest, Gross),
      economicSupply := state.economicSupply + FlowSum(settled, DepositRequest, Shares) - FlowSum(settled, RedeemRequest, Shares),
      accruedFees := state.accruedFees + FlowSum(settled, DepositRequest, Fee) + FlowSum(settled, RedeemRequest, Fee))
  }

  function RewardOf(settled: seq<SettledRequest>): int {
    FlowSum(settled, DepositRequest, Reward) + FlowSum(settled, RedeemRequest, Reward)
  }

  lemma SuccessorMeans(state: State, terms: Terms, settled: seq<SettledRequest>)
    ensures BatchSuccessor(state, terms, TotalsOf(settled)).Ok? <==>
      FlowSum(settled, RedeemRequest, Shares) <= state.economicSupply && ValidEconomics(BatchState(state, settled), terms)
    ensures BatchSuccessor(state, terms, TotalsOf(settled)).Ok? ==>
      BatchSuccessor(state, terms, TotalsOf(settled)).value == BatchState(state, settled)
    ensures TotalsOf(settled).reward == RewardOf(settled)
  {
    hide TotalsOf, FlowSum, ValidEconomics;
    TotalsAreSums(settled);
  }

  lemma StateOutputExists(state: State, terms: Terms, policy: Hex)
    requires ValidEconomics(state, terms) && IsHex(policy, 28) && IsHex(state.vaultPolicy, 28) && IsNamed(terms.underlying)
    requires terms.underlying.Native? ==> Lower(terms.underlying.policy) != Lower(state.vaultPolicy)
    ensures StateValue(state, terms).Ok?
    ensures
      var output := Output(StateOutput, ScriptDestination(policy), StateValue(state, terms).value, Some(StateDatum(state)));
      output.Ok? && ValidOutput(output.value)
  {
    hide IsHex, IsNamed, ValueOf, EntrySum, ValidEconomics, ValidOutput, Output, IsActual, OwnAsset;
    var entries := StateEntries(state, terms);
    ValidEconomicsMeans(state, terms);
    NameIsNamed(state.vaultPolicy, StateToken);
    AdaIsNamed();
    OnlyAdaIsAda(terms.underlying);
    OwnAssetId(state.vaultPolicy, StateToken);
    forall a ensures EntrySum(entries, a) <= 9_223_372_036_854_775_807 {
      SumOfThree(entries[0], entries[1], entries[2], a);
    }
    BoundedIsBuilt(entries);
    ValueOfMeans(entries);
    CustodyIsBounded(ValueOf(entries).value);
    OutputExists(StateOutput, policy, StateValue(state, terms).value, StateDatum(state));
  }

  /** Room for a reward and its top-up, which come together. */
  predicate PaysReward(reward: int, topup: int) {
    if reward == 0 then topup == 0 else IsAmount(reward + topup)
  }

  lemma RewardExists(key: Hex, reward: int, topup: int)
    requires IsHex(key, 28) && 0 < reward && 0 <= topup
    ensures
      var value := ValueOf([(Ada, reward + topup)]);
      && (value.Ok? <==> IsAmount(reward + topup))
      && (value.Ok? ==>
            var output := Output(RewardOutput, Destination(Enterprise(Key, key), None), value.value, None);
            output.Ok? && ValidOutput(output.value))
  {
    hide IsHex, ParseHexOf, IsActual, AddEntries;
    var entries := [(Ada, reward + topup)];
    AllHexMeans();
    AdaIsNamed();
    if IsAmount(reward + topup) {
      forall a ensures EntrySum(entries, a) <= 9_223_372_036_854_775_807 {
        SumOfOne(entries[0], a);
      }
      BoundedIsBuilt(entries);
    }
    if ValueOf(entries).Ok? {
      BuiltIsBounded(entries);
      assert entries[0] in entries;
      ValueOfMeans(entries);
      CustodyIsBounded(ValueOf(entries).value);
      OutputIsValid(RewardOutput, Destination(Enterprise(Key, key), None), ValueOf(entries).value, None);
    }
  }

  /** The outputs of a batch exist exactly when every Claim and the reward have room. */
  lemma OutputsMean(options: BatchOptions, successor: State, settled: seq<SettledRequest>, reward: int)
    requires IsDeployed(options.context, Ctvs2) && options.context.deployment.claimScript.Some?
    requires ValidEconomics(successor, options.context.terms) && IsHex(successor.vaultPolicy, 28)
    requires Matches(successor.vaultPolicy, options.context.deployment.policy)
    requires IsHex(options.rewardKey, 28) && 0 <= reward && 0 <= options.rewardTopup
    requires forall i :: 0 <= i < |settled| ==> IsSoundBut(settled[i].claim)
    ensures BatchOutputs(options, successor, settled, reward).Ok? <==>
      (forall i :: 0 <= i < |settled| ==> HasRoom(settled[i].claim)) && PaysReward(reward, options.rewardTopup)
    ensures BatchOutputs(options, successor, settled, reward).Ok? ==>
      forall o <- BatchOutputs(options, successor, settled, reward).value :: ValidOutput(o)
  {
    hide IsDeployed, IsHex, IsSoundBut, HasRoom, ValidEconomics, StateValue, ClaimOutputs, ValueOf, Output, ValidOutput, Matches;
    var d, terms := options.context.deployment, options.context.terms;
    DeployedHasNamed(options.context, Ctvs2);
    DeployedIsHex(options.context, Ctvs2);
    DeployedIsForeign(options.context, successor.vaultPolicy);
    StateOutputExists(successor, terms, d.policy);
    ClaimsHaveRoom(settled, d.claimScript.value);
    if reward > 0 {
      RewardExists(options.rewardKey, reward, options.rewardTopup);
    }
  }

  lemma DeployedIsForeign(context: Context, policy: Hex)
    requires IsDeployed(context, Ctvs2) && Matches(policy, context.deployment.policy)
    ensures context.terms.underlying.Native? ==> Lower(context.terms.underlying.policy) != Lower(policy)
    ensures context.deployment.claimScript.Some? && IsHex(context.deployment.claimScript.value, 28)
  {
    hide IsHex, IsSupported, Lower;
    if context.terms.underlying.Native? {
      DeployedHasNamed(context, Ctvs2);
      NamedPolicyIsDigits(context.terms.underlying);
    }
  }

  lemma NamedPolicyIsDigits(a: Asset)
    requires a.Native? && IsNamed(a)
    ensures IsDigits(a.policy)
  {
  }

  /** The State, the Requests and the Config are different outputs. */
  predicate AreSeparate(stateRef: OutRef, configRef: OutRef, settled: seq<SettledRequest>) {
    && Differ(stateRef, configRef)
    && forall i :: 0 <= i < |settled| ==> Differ(settled[i].source.ref, stateRef) && Differ(settled[i].source.ref, configRef)
  }

  lemma BatchActionIsAction(settled: seq<SettledRequest>, key: Hex, reward: int)
    requires 1 <= |settled| <= 16 && IsHex(key, 28)
    requires forall i :: 0 <= i < |settled| ==> IsAt(settled[i].source.ref) && IsAmount(settled[i].claimTopup)
    requires forall i, j :: 0 <= i < j < |settled| ==> RefLess(RefId(settled[i].source.ref), RefId(settled[j].source.ref))
    ensures IsAction(StateAction(Batch(0, Entries(settled), key, if reward > 0 then Some(1 + |settled|) else None)))
  {
    hide IsHex, IsAt, RefLess, RefId;
    var entries := Entries(settled);
    forall i | 0 <= i < |entries| ensures entries[i] == SettleEntry(settled[i].source.ref, i + 1, settled[i].claimTopup) {
    }
  }

  /** The inputs of a batch: the State, then one Request a settlement. */
  ghost predicate HasBatchInputs(plan: Plan, stateRef: OutRef, configRef: OutRef, settled: seq<SettledRequest>, action: Redeemer) {
    && |plan.inputs| == 1 + |settled| && plan.inputs[0] == PlanInput(stateRef, StateInput, Some(action))
    && (forall i :: 1 <= i <= |settled| ==>
          plan.inputs[i] == PlanInput(settled[i - 1].source.ref, RequestInput, Some(RequestAction(Acknowledge(stateRef)))))
    && plan.referenceInputs == [configRef]
  }

  lemma ApartIsSeparate(plan: Plan, stateRef: OutRef, configRef: OutRef, settled: seq<SettledRequest>, action: Redeemer)
    requires HasBatchInputs(plan, stateRef, configRef, settled, action) && UsesApart(plan)
    ensures AreSeparate(stateRef, configRef, settled)
  {
    hide HasItsAction, IsAt, Lower;
    assert Differ(plan.referenceInputs[0], plan.inputs[0].ref);
    forall i | 0 <= i < |settled| ensures Differ(settled[i].source.ref, stateRef) && Differ(settled[i].source.ref, configRef) {
      assert Differ(plan.inputs[0].ref, plan.inputs[i + 1].ref);
      assert Differ(plan.referenceInputs[0], plan.inputs[i + 1].ref);
    }
  }

  lemma SeparateIsApart(plan: Plan, stateRef: OutRef, configRef: OutRef, settled: seq<SettledRequest>, action: Redeemer)
    requires HasBatchInputs(plan, stateRef, configRef, settled, action) && AreSeparate(stateRef, configRef, settled)
    requires action.StateAction? && IsAction(action) && IsAt(stateRef) && IsAt(configRef)
    requires forall i :: 0 <= i < |settled| ==> IsAt(settled[i].source.ref)
    requires forall i, j :: 0 <= i < j < |settled| ==> Differ(settled[i].source.ref, settled[j].source.ref)
    ensures UsesApart(plan)
  {
    hide IsAt, Lower, IsAction;
    AcknowledgeIsAction(stateRef);
    forall i | 0 <= i < |plan.inputs| ensures HasItsAction(plan.inputs[i]) && Differ(configRef, plan.inputs[i].ref) {
      if i > 0 {
        assert Differ(settled[i - 1].source.ref, configRef);
      }
    }
    forall i, j | 0 <= i < j < |plan.inputs| ensures Differ(plan.inputs[i].ref, plan.inputs[j].ref) {
      if i > 0 {
        assert Differ(settled[i - 1].source.ref, settled[j - 1].source.ref);
      } else {
        assert Differ(settled[j - 1].source.ref, stateRef);
      }
    }
  }

  lemma AcknowledgeIsAction(ref: OutRef)
    requires IsAt(ref)
    ensures IsAction(RequestAction(Acknowledge(ref)))
  {
  }

  lemma BatchUsesApart(plan: Plan, options: BatchOptions, settled: seq<SettledRequest>, action: Redeemer)
    requires plan.inputs == [PlanInput(options.stateInput.ref, StateInput, Some(action))] + RequestInputs(settled, options.stateInput.ref)
    requires plan.referenceInputs == [options.context.deployment.configRef]
    requires action.StateAction? && IsAction(action) && IsAt(options.stateInput.ref) && IsAt(options.context.deployment.configRef)
    requires forall i :: 0 <= i < |settled| ==> IsAt(settled[i].source.ref)
    requires forall i, j :: 0 <= i < j < |settled| ==> Differ(settled[i].source.ref, settled[j].source.ref)
    ensures UsesApart(plan) <==> AreSeparate(options.stateInput.ref, options.context.deployment.configRef, settled)
  {
    hide IsAt, Differ, IsAction, UsesApart, AreSeparate;
    var stateRef, configRef := options.stateInput.ref, options.context.deployment.configRef;
    assert HasBatchInputs(plan, stateRef, configRef, settled, action);
    if UsesApart(plan) {
      ApartIsSeparate(plan, stateRef, configRef, settled, action);
    }
    if AreSeparate(stateRef, configRef, settled) {
      SeparateIsApart(plan, stateRef, configRef, settled, action);
    }
  }

  lemma BatchMintIsOwn(deployment: Deployment, delta: int, stateRef: OutRef)
    requires IsHex(deployment.policy, 28) && IsAt(stateRef) && delta != 0 && (IsAmount(delta) || IsAmount(-delta))
    ensures IsOwnMint(SupplyMint(deployment.policy, delta, stateRef), deployment.policy)
  {
    hide IsAt, TokenHex, Lower;
    NameIsNamed(deployment.policy, ShareToken);
  }

  /** The plan of a batch is an intent exactly when its inputs and its reference are different outputs. */
  lemma BatchIsIntent(plan: Plan, options: BatchOptions, settled: seq<SettledRequest>, action: Redeemer, delta: int)
    requires plan == Plan(
      BatchOperation, options.context.deployment,
      [PlanInput(options.stateInput.ref, StateInput, Some(action))] + RequestInputs(settled, options.stateInput.ref),
      [options.context.deployment.configRef], plan.outputs,
      if delta == 0 then [] else [SupplyMint(options.context.deployment.policy, delta, options.stateInput.ref)],
      [options.rewardKey], Some(options.validity))
    requires |plan.outputs| <= 65_536 && forall o <- plan.outputs :: ValidOutput(o)
    requires action.StateAction? && IsAction(action) && IsAt(options.stateInput.ref) && IsAt(options.context.deployment.configRef)
    requires forall i :: 0 <= i < |settled| ==> IsAt(settled[i].source.ref)
    requires forall i, j :: 0 <= i < j < |settled| ==> Differ(settled[i].source.ref, settled[j].source.ref)
    requires IsHex(options.context.deployment.policy, 28) && IsHex(options.rewardKey, 28) && IsInterval(options.validity)
    requires IsAmount(delta) || IsAmount(-delta)
    ensures CreatePlan(plan).Ok? <==> AreSeparate(options.stateInput.ref, options.context.deployment.configRef, settled)
  {
    hide UsesApart, AreSeparate, IsAction, IsAt, IsHex, ValidOutput, CreatePlan, SupplyMint, IsOwnMint, Differ, IsCanonical, IsLocated, Lower;
    PlanMeans(plan);
    BatchUsesApart(plan, options, settled, action);
    forall o <- plan.outputs ensures IsCanonical(o.value) && IsLocated(o.address) {
      OutputMeans(o);
    }
    if delta != 0 {
      BatchMintIsOwn(options.context.deployment, delta, options.stateInput.ref);
    }
  }

  /** What laying out settled Requests asks for. */
  ghost predicate CanLayOut(options: BatchOptions, state: State, settled: seq<SettledRequest>) {
    && FlowSum(settled, RedeemRequest, Shares) <= state.economicSupply
    && ValidEconomics(BatchState(state, settled), options.context.terms)
    && (forall i :: 0 <= i < |settled| ==> HasRoom(settled[i].claim))
    && PaysReward(RewardOf(settled), options.rewardTopup)
    && AreSeparate(options.stateInput.ref, options.context.deployment.configRef, settled)
  }

  lemma IssueIsAmount(settled: seq<SettledRequest>)
    requires FlowsFit(settled) && forall i :: 0 <= i < |settled| ==> HasFlows(settled[i])
    ensures
      var delta := TotalsOf(settled).issued - TotalsOf(settled).burned;
      IsAmount(delta) || IsAmount(-delta)
    ensures 0 <= RewardOf(settled) <= 9_223_372_036_854_775_807
  {
    hide TotalsOf, FlowSum;
    TotalsAreSums(settled);
    FlowsAreNonnegative(settled, DepositRequest, Shares);
    FlowsAreNonnegative(settled, RedeemRequest, Shares);
    FlowsAreNonnegative(settled, DepositRequest, Reward);
    FlowsAreNonnegative(settled, RedeemRequest, Reward);
  }

  /** A batch of settled Requests is laid out exactly when it is solvent, valid, has room, and spends different outputs. */
  lemma AssemblyMeans(options: BatchOptions, state: State, settled: seq<SettledRequest>)
    requires IsDeployed(options.context, Ctvs2) && options.context.deployment.claimScript.Some?
    requires IsHex(state.vaultPolicy, 28) && Matches(state.vaultPolicy, options.context.deployment.policy)
    requires IsHex(options.rewardKey, 28) && IsAmount(options.rewardTopup) && IsInterval(options.validity)
    requires IsAt(options.stateInput.ref) && IsAt(options.context.deployment.configRef)
    requires 1 <= |settled| <= 16 && FlowsFit(settled)
    requires forall i :: 0 <= i < |settled| ==>
      && IsSoundBut(settled[i].claim) && IsAt(settled[i].source.ref) && IsAmount(settled[i].claimTopup) && HasFlows(settled[i])
    requires forall i, j :: 0 <= i < j < |settled| ==> RefLess(RefId(settled[i].source.ref), RefId(settled[j].source.ref))
    ensures AssembleBatch(options, state, settled).Ok? <==> CanLayOut(options, state, settled)
  {
    hide IsDeployed, IsHex, IsSoundBut, HasRoom, ValidEconomics, Matches, IsAt, RefLess, RefId, BatchOutputs, BatchSuccessor, TotalsOf, FlowSum,
      CreatePlan, ValidOutput, IsAction, AreSeparate, FlowsFit, HasFlows, SupplyMint, RequestInputs, Entries, Lower, PaysReward;
    SuccessorMeans(state, options.context.terms, settled);
    IssueIsAmount(settled);
    var reward := RewardOf(settled);
    if BatchSuccessor(state, options.context.terms, TotalsOf(settled)).Ok? {
      var after := BatchState(state, settled);
      DeployedIsHex(options.context, Ctvs2);
      OutputsMean(options, after, settled, reward);
      var outputs := BatchOutputs(options, after, settled, reward);
      if outputs.Ok? {
        var action := StateAction(Batch(0, Entries(settled), options.rewardKey, if reward > 0 then Some(1 + |settled|) else None));
        BatchActionIsAction(settled, options.rewardKey, reward);
        OrderedDiffer(settled);
        var delta := TotalsOf(settled).issued - TotalsOf(settled).burned;
        var plan := Plan(
          BatchOperation, options.context.deployment,
          [PlanInput(options.stateInput.ref, StateInput, Some(action))] + RequestInputs(settled, options.stateInput.ref),
          [options.context.deployment.configRef], outputs.value,
          if delta == 0 then [] else [SupplyMint(options.context.deployment.policy, delta, options.stateInput.ref)],
          [options.rewardKey], Some(options.validity));
        BatchIsIntent(plan, options, settled, action, delta);
      }
    }
  }

  lemma OrderedDiffer(settled: seq<SettledRequest>)
    requires forall i, j :: 0 <= i < j < |settled| ==> RefLess(RefId(settled[i].source.ref), RefId(settled[j].source.ref))
    ensures forall i, j :: 0 <= i < j < |settled| ==> Differ(settled[i].source.ref, settled[j].source.ref)
  {
    hide RefLess;
    forall i, j | 0 <= i < j < |settled| ensures Differ(settled[i].source.ref, settled[j].source.ref) {
      RefOrder(RefId(settled[i].source.ref), RefId(settled[j].source.ref));
    }
  }

  lemma DeployedHashes(context: Context)
    requires IsDeployed(context, Ctvs2) && ParseHexOf(context.deployment.termsHash, 32).Ok?
    ensures IsHex(context.deployment.policy, 28) && IsHex(context.deployment.termsHash, 32) && context.deployment.claimScript.Some?
    ensures IsNamed(context.terms.underlying)
  {
    hide IsHex, ParseHexOf, IsSupported, IsNamed;
    AllHexMeans();
    DeployedHasNamed(context, Ctvs2);
  }

  /** Who may settle: anyone, or under a settler set a member in any spelling. */
  predicate MaySettle(terms: Terms, key: Hex) {
    terms.settlers == None || exists i :: 0 <= i < |terms.settlers.value| && Matches(terms.settlers.value[i], key)
  }

  lemma AuthorityMeans(terms: Terms, key: Hex)
    ensures AuthorizedSettler(terms, key) <==> MaySettle(terms, key)
  {
    hide SameHex, Matches;
    AllMatchMeans();
  }

  /** The candidates of a batch in the order in which it spends them. */
  function Ordered(requests: seq<BatchRequest>): seq<BatchRequest> {
    SortItems(requests, RequestRef)
  }

  predicate AreDistinct(requests: seq<BatchRequest>) {
    && (forall i :: 0 <= i < |requests| ==> IsAt(requests[i].input.ref))
    && forall i, j :: 0 <= i < j < |requests| ==> Differ(requests[i].input.ref, requests[j].input.ref)
  }

  lemma SortableMeans(requests: seq<BatchRequest>)
    ensures SortableReferences(requests, RequestRef) <==> 1 <= |requests| <= 16 && AreDistinct(requests)
  {
    hide IsReference, IsAt, Lower;
    forall i | 0 <= i < |requests| ensures IsReference(requests[i].input.ref) <==> IsAt(requests[i].input.ref) {
      ReferenceMeans(requests[i].input.ref);
    }
    var ids := Ids(requests, RequestRef);
    if Distinct(ids) {
      forall i, j | 0 <= i < j < |requests| ensures Differ(requests[i].input.ref, requests[j].input.ref) {
        assert ids[i] != ids[j];
      }
    }
  }

  /** The settlements of a batch: one of each candidate alone, in spending order, whose flows fit. */
  ghost predicate AreSettled(options: BatchOptions, state: State, requests: seq<BatchRequest>, settled: seq<SettledRequest>) {
    && |settled| == |requests| && FlowsFit(settled)
    && forall i :: 0 <= i < |settled| ==>
         SettleRequest(Ordered(requests)[i], options.context.deployment, state, options.stateInput.ref, options.context.terms,
           options.validity.upperPosixMs) == Ok(settled[i])
  }

  lemma SettledAreSound(options: BatchOptions, state: State, requests: seq<BatchRequest>, settled: seq<SettledRequest>)
    requires AreSettled(options, state, requests, settled) && AreDistinct(requests) && IsAt(options.stateInput.ref)
    requires IsHex(options.context.deployment.policy, 28) && IsHex(options.context.deployment.termsHash, 32)
    requires IsNamed(options.context.terms.underlying)
    ensures forall i :: 0 <= i < |settled| ==>
      && IsSoundBut(settled[i].claim) && IsAt(settled[i].source.ref) && IsAmount(settled[i].claimTopup) && HasFlows(settled[i])
    ensures 1 <= |requests| <= 16 ==>
      forall i, j :: 0 <= i < j < |settled| ==> RefLess(RefId(settled[i].source.ref), RefId(settled[j].source.ref))
  {
    hide SettleRequest, IsSoundBut, IsHex, IsNamed, IsAt, RefLess, RefId, FlowsFit, HasFlows;
    forall i | 0 <= i < |settled|
      ensures IsSoundBut(settled[i].claim) && IsAt(settled[i].source.ref) && IsAmount(settled[i].claimTopup) && HasFlows(settled[i])
      ensures settled[i].source == Ordered(requests)[i].input
    {
      SettledIsSoundBut(Ordered(requests)[i], options.context.deployment, state, options.stateInput.ref, options.context.terms,
        options.validity.upperPosixMs);
    }
    if 1 <= |requests| <= 16 {
      SortableMeans(requests);
      SortedReferencesIsCanonical(requests, requests, RequestRef);
      forall i, j | 0 <= i < j < |settled| ensures RefLess(RefId(settled[i].source.ref), RefId(settled[j].source.ref)) {
        assert RefLess(RefId(RequestRef(Ordered(requests)[i])), RefId(RequestRef(Ordered(requests)[j])));
      }
    }
  }

  /**
   * A batch of given settlements exists exactly when its settler may settle, its interval is finite, it has 1 to 16 distinct
   * candidates within the cap of the Terms, each settles alone at the snapshot, their flows fit, redemptions are covered by
   * the supply before the batch, the successor is valid, Claims and reward have room, and it spends no output twice.
   */
  lemma BatchMeans(options: BatchOptions, requests: seq<BatchRequest>, state: State, settled: seq<SettledRequest>)
    requires ResolveState(options.context, options.stateInput, Ctvs2) == Ok(state)
    ensures BuildBatch(options, requests).Ok? && BuildBatch(options, requests).value.settled == settled <==>
      && IsInterval(options.validity) && IsAmount(options.rewardTopup) && IsHex(options.rewardKey, 28)
      && MaySettle(options.context.terms, options.rewardKey)
      && 1 <= |requests| <= 16 && |requests| <= options.context.terms.maxBatch && AreDistinct(requests)
      && AreSettled(options, state, requests, settled) && CanLayOut(options, state, settled)
  {
    hide ResolveState, IsDeployed, IsHex, ParseHexOf, MaySettle, AuthorizedSettler, AreDistinct, SortableReferences, Settlements, SettleRequest,
      FlowsFit, CanLayOut, AssembleBatch, IsSoundBut, HasFlows, IsAt, RefLess, RefId, IsState, IsHeldBy, HoldsState, ValidEconomics, Matches,
      IsNamed;
    var d, terms := options.context.deployment, options.context.terms;
    ResolveMeans(options.context, options.stateInput, Ctvs2, state);
    ResolvedIsPlaced(options, state);
    AllHexMeans();
    AuthorityMeans(terms, options.rewardKey);
    SortableMeans(requests);
    var sorted := Ordered(requests);
    SettlementsMean(sorted, d, state, options.stateInput.ref, terms, options.validity.upperPosixMs, settled);
    if AreSettled(options, state, requests, settled) && AreDistinct(requests) && 1 <= |requests| <= 16
      && IsHex(options.rewardKey, 28) && IsAmount(options.rewardTopup) && IsInterval(options.validity)
    {
      SettledAreSound(options, state, requests, settled);
      AssemblyMeans(options, state, settled);
    }
    AssembledKeeps(options, state, requests);
  }

  /** A built batch is the assembly of its own settlements. */
  lemma AssembledKeeps(options: BatchOptions, state: State, requests: seq<BatchRequest>)
    requires ResolveState(options.context, options.stateInput, Ctvs2) == Ok(state)
    ensures
      var built := BuildBatch(options, requests);
      var settled := Settlements(Ordered(requests), options.context.deployment, state, options.stateInput.ref, options.context.terms,
        options.validity.upperPosixMs);
      built.Ok? <==>
        && options.context.deployment.claimScript.Some? && FiniteValidity(options.validity).Pass? && IsQuantity(options.rewardTopup)
        && ParseHexOf(options.rewardKey, 28).Ok? && AuthorizedSettler(options.context.terms, options.rewardKey)
        && SortableReferences(requests, RequestRef) && |requests| <= options.context.terms.maxBatch
        && settled.Ok? && AssembleBatch(options, state, settled.value).Ok?
    ensures
      var built := BuildBatch(options, requests);
      built.Ok? ==> Settlements(Ordered(requests), options.context.deployment, state, options.stateInput.ref, options.context.terms,
        options.validity.upperPosixMs) == Ok(built.value.settled)
  {
    hide ResolveState, Settlements, SortableReferences, AuthorizedSettler, ParseHexOf, BatchSuccessor, BatchOutputs, CreatePlan, TotalsOf, Entries,
      RequestInputs, SupplyMint;
    ResolvedHasScript(options, state);
  }

  lemma ResolvedHasScript(options: BatchOptions, state: State)
    requires ResolveState(options.context, options.stateInput, Ctvs2) == Ok(state)
    ensures options.context.deployment.claimScript.Some?
  {
    hide StateShape, ValidEconomics, StateValue, AssertSameValue, TermsShape, SameHex, ParseHexOf, FamilyModes;
  }

  lemma ResolvedIsPlaced(options: BatchOptions, state: State)
    requires ResolveState(options.context, options.stateInput, Ctvs2) == Ok(state)
    ensures IsDeployed(options.context, Ctvs2) && IsAt(options.stateInput.ref) && IsAt(options.context.deployment.configRef)
    ensures IsHex(state.vaultPolicy, 28) && Matches(state.vaultPolicy, options.context.deployment.policy)
    ensures options.context.deployment.claimScript.Some? && IsNamed(options.context.terms.underlying)
    ensures IsHex(options.context.deployment.policy, 28) && IsHex(options.context.deployment.termsHash, 32)
  {
    hide ResolveState, IsHex, IsSupported, IsNamed, HoldsState, ValidEconomics, IsCanonical, IsAt, Lower;
    ResolveMeans(options.context, options.stateInput, Ctvs2, state);
    DeployedHasNamed(options.context, Ctvs2);
    SameLength(state.termsHash, options.context.deployment.termsHash, 32);
  }

  lemma SameLength(a: Hex, b: Hex, bytes: nat)
    requires IsHex(a, bytes) && IsDigits(b) && Lower(a) == Lower(b)
    ensures IsHex(b, bytes)
  {
  }

  /** A plan that consumes the State alone is an intent exactly when State and Config are different outputs. */
  lemma LoneStateIsIntent(plan: Plan, deployment: Deployment, ref: OutRef, action: StateRedeemer)
    requires plan == Plan(
      plan.operation, deployment, [PlanInput(ref, StateInput, Some(StateAction(action)))], [deployment.configRef], plan.outputs, plan.mint,
      plan.requiredSigners, None)
    requires |plan.outputs| <= 2 && (forall o <- plan.outputs :: ValidOutput(o))
    requires (forall m <- plan.mint :: IsOwnMint(m, deployment.policy)) && |plan.requiredSigners| <= 1
    requires (forall k <- plan.requiredSigners :: IsHex(k, 28)) && IsAction(StateAction(action)) && IsAt(ref) && IsAt(deployment.configRef)
    ensures CreatePlan(plan).Ok? <==> Differ(deployment.configRef, ref)
  {
    hide IsAction, IsAt, IsHex, ValidOutput, CreatePlan, IsOwnMint, Differ, IsCanonical, IsLocated, Lower;
    PlanMeans(plan);
    forall o <- plan.outputs ensures IsCanonical(o.value) && IsLocated(o.address) {
      OutputMeans(o);
    }
    assert plan.inputs[0].ref == ref && plan.referenceInputs[0] == deployment.configRef && HasItsAction(plan.inputs[0]);
  }

  /** What a State input that resolves for either family brings. */
  lemma ResolvedBrings(context: Context, input: ProtectedInput, family: Family, state: State)
    requires ResolveState(context, input, family) == Ok(state)
    ensures IsDeployed(context, family) && IsAt(input.ref) && IsAt(context.deployment.configRef) && IsHex(context.deployment.policy, 28)
    ensures IsHex(state.vaultPolicy, 28) && Lower(state.vaultPolicy) == Lower(context.deployment.policy) && ValidEconomics(state, context.terms)
    ensures IsNamed(context.terms.underlying)
    ensures context.terms.underlying.Native? ==> Lower(context.terms.underlying.policy) != Lower(state.vaultPolicy)
    ensures IsLocated(context.terms.feeDestination.address) && (context.terms.pauseKey.Some? ==> IsHex(context.terms.pauseKey.value, 28))
  {
    hide ResolveState, IsHex, IsNamed, HoldsState, ValidEconomics, IsCanonical, IsAt, Lower, IsLocated, IsMembership;
    ResolveMeans(context, input, family, state);
    DeployedIsHex(context, family);
    if context.terms.underlying.Native? {
      NamedPolicyIsDigits(context.terms.underlying);
    }
  }

  lemma StateUpdateExists(context: Context, state: State)
    requires ValidEconomics(state, context.terms) && IsHex(context.deployment.policy, 28) && IsHex(state.vaultPolicy, 28)
    requires IsNamed(context.terms.underlying)
    requires context.terms.underlying.Native? ==> Lower(context.terms.underlying.policy) != Lower(state.vaultPolicy)
    ensures StateUpdate(context, state).Ok? && ValidOutput(StateUpdate(context, state).value)
  {
    hide IsHex, IsNamed, ValidEconomics, StateValue, Output, ValidOutput, Lower;
    StateOutputExists(state, context.terms, context.deployment.policy);
  }

  /** A value of one asset with ADA on top of it, paid to a destination. */
  lemma PaymentExists(role: OutputRole, to: Destination, asset: Asset, amount: int, topup: int)
    requires IsNamed(asset) && IsAmount(amount) && IsAmount(topup)
    ensures
      var value := ValueOf([(asset, amount), (Ada, topup)]);
      && (value.Ok? <==> (asset == Ada ==> IsAmount(amount + topup)))
      && (value.Ok? ==>
            var output := Output(role, to, value.value, None);
            (output.Ok? <==> IsLocated(to.address)) && (output.Ok? ==> ValidOutput(output.value)))
  {
    hide IsNamed, IsHex, ParseHexOf, IsActual, ValueOf, EntrySum;
    var entries := [(asset, amount), (Ada, topup)];
    AllHexMeans();
    AdaIsNamed();
    OnlyAdaIsAda(asset);
    forall a ensures EntrySum(entries, a) == When(AssetId(asset) == a, amount) + When(a == Ada, topup) {
      SumOfTwo(entries[0], entries[1], a);
    }
    forall e <- entries ensures e == entries[0] || e == entries[1] {
    }
    if asset == Ada ==> IsAmount(amount + topup) {
      BoundedIsBuilt(entries);
    }
    if ValueOf(entries).Ok? {
      BuiltIsBounded(entries);
      assert EntrySum(entries, Ada) <= 9_223_372_036_854_775_807;
      ValueOfMeans(entries);
      CustodyIsBounded(ValueOf(entries).value);
      if Output(role, to, ValueOf(entries).value, None).Ok? {
        OutputIsValid(role, to, ValueOf(entries).value, None);
      }
    }
  }

  /** The next number in sequence is still one, and the State can be told from its Config. */
  predicate CanFollow(context: Context, input: ProtectedInput, state: State) {
    state.sequence < 9_223_372_036_854_775_807 && Differ(context.deployment.configRef, input.ref)
  }

  lemma SuccessorIsValid(state: State, after: State, terms: Terms)
    requires ValidEconomics(state, terms) && after == state.(
      sequence := state.sequence + 1, accruedFees := after.accruedFees, storageLovelace := after.storageLovelace, pauseFlags := after.pauseFlags)
    requires 0 <= after.accruedFees <= state.accruedFees && state.storageLovelace <= after.storageLovelace && 0 <= after.pauseFlags < 4
    ensures ValidEconomics(after, terms) <==>
      && after.sequence <= 9_223_372_036_854_775_807 && IsAmount(after.storageLovelace)
      && (terms.underlying == Ada ==> IsAmount(after.backingAssets + after.accruedFees + after.storageLovelace))
  {
    ValidEconomicsMeans(state, terms);
    ValidEconomicsMeans(after, terms);
  }

  lemma KnownRanges(state: State, terms: Terms)
    requires ValidEconomics(state, terms)
    ensures IsAmount(state.accruedFees) && 1 <= state.storageLovelace && IsAmount(state.storageLovelace) && 0 <= state.pauseFlags < 4
    ensures terms.underlying == Ada ==> IsAmount(state.backingAssets + state.accruedFees + state.storageLovelace)
    ensures 0 <= state.backingAssets
  {
    ValidEconomicsMeans(state, terms);
  }

  /** A maintenance plan exists exactly when its successor is valid and its State and Config are different outputs. */
  lemma ChangeExists(
    context: Context, input: ProtectedInput, family: Family, state: State, after: State, operation: PlanOperation, action: StateRedeemer,
    extra: seq<PlannedOutput>, signers: seq<Hex>)
    requires ResolveState(context, input, family) == Ok(state) && after.vaultPolicy == state.vaultPolicy
    requires |extra| <= 1 && (forall o <- extra :: ValidOutput(o)) && IsAction(StateAction(action))
    requires |signers| <= 1 && forall k <- signers :: IsHex(k, 28)
    ensures PlanStateChange(context, input, after, operation, action, extra, signers).Ok? <==>
      ValidEconomics(after, context.terms) && Differ(context.deployment.configRef, input.ref)
  {
    hide ResolveState, IsDeployed, IsHex, IsNamed, ValidEconomics, StateUpdate, CreatePlan, IsAction, IsAt, Differ, ValidOutput, Lower, IsLocated;
    ResolvedBrings(context, input, family, state);
    if ValidEconomics(after, context.terms) {
      StateUpdateExists(context, after);
      var outputs := [StateUpdate(context, after).value] + extra;
      var plan := Plan(
        operation, context.deployment, [PlanInput(input.ref, StateInput, Some(StateAction(action)))], [context.deployment.configRef],
        outputs, [], signers, None);
      LoneStateIsIntent(plan, context.deployment, input.ref, action);
    }
  }

  /** A pause can be planned exactly for flags 0 to 3 in a vault whose Terms name a pause key. */
  lemma PauseMeans(family: Family, context: Context, input: ProtectedInput, state: State, flags: int)
    requires ResolveState(context, input, family) == Ok(state)
    ensures CreateSetPausePlan(family, context, input, flags).Ok? <==>
      0 <= flags < 4 && context.terms.pauseKey != None && CanFollow(context, input, state)
  {
    hide ResolveState, IsDeployed, IsHex, IsNamed, ValidEconomics, PlanStateChange, IsAt, Differ, Lower, IsLocated;
    ResolvedBrings(context, input, family, state);
    if 0 <= flags < 4 && context.terms.pauseKey.Some? {
      var after := state.(sequence := state.sequence + 1, pauseFlags := flags);
      KnownRanges(state, context.terms);
      SuccessorIsValid(state, after, context.terms);
      ChangeExists(context, input, family, state, after, SetPauseOperation, SetPause(flags, 0), [], [context.terms.pauseKey.value]);
    }
  }

  /** The reserve can be topped up exactly by a positive amount that it has room for. */
  lemma TopUpMeans(family: Family, context: Context, input: ProtectedInput, state: State, additional: int)
    requires ResolveState(context, input, family) == Ok(state)
    ensures CreateTopUpPlan(family, context, input, additional).Ok? <==>
      && 1 <= additional && IsAmount(additional) && IsAmount(state.storageLovelace + additional) && CanFollow(context, input, state)
      && (context.terms.underlying == Ada ==>
            IsAmount(state.backingAssets + state.accruedFees + state.storageLovelace + additional))
  {
    hide ResolveState, IsDeployed, IsHex, IsNamed, ValidEconomics, PlanStateChange, IsAt, Differ, Lower, IsLocated;
    ResolvedBrings(context, input, family, state);
    if 1 <= additional && IsAmount(additional) {
      var after := state.(sequence := state.sequence + 1, storageLovelace := state.storageLovelace + additional);
      KnownRanges(state, context.terms);
      SuccessorIsValid(state, after, context.terms);
      ChangeExists(context, input, family, state, after, TopUpOperation, TopUpReserve(additional, 0), [], []);
    }
  }

  /** Fees can be collected exactly when some have accrued and their payment has room for its top-up. */
  lemma CollectMeans(family: Family, context: Context, input: ProtectedInput, state: State, topup: int)
    requires ResolveState(context, input, family) == Ok(state)
    ensures CreateCollectFeesPlan(family, context, input, topup).Ok? <==>
      && 1 <= state.accruedFees && IsAmount(topup) && CanFollow(context, input, state)
      && (context.terms.underlying == Ada ==> IsAmount(state.accruedFees + topup))
  {
    hide ResolveState, IsDeployed, IsHex, IsNamed, ValidEconomics, PlanStateChange, IsAt, Differ, Lower, IsLocated, ValueOf, Output, ValidOutput;
    ResolvedBrings(context, input, family, state);
    FeesAreAmount(state, context.terms);
    if 1 <= state.accruedFees && IsAmount(topup) {
      var after := state.(sequence := state.sequence + 1, accruedFees := 0);
      KnownRanges(state, context.terms);
      SuccessorIsValid(state, after, context.terms);
      PaymentExists(FeesOutput, context.terms.feeDestination, context.terms.underlying, state.accruedFees, topup);
      var paid := ValueOf([(context.terms.underlying, state.accruedFees), (Ada, topup)]);
      if paid.Ok? {
        var payout := Output(FeesOutput, context.terms.feeDestination, paid.value, None).value;
        ChangeExists(context, input, family, state, after, CollectFeesOperation, CollectFees(0, 1), [payout], []);
      }
    }
  }

  lemma FeesAreAmount(state: State, terms: Terms)
    requires ValidEconomics(state, terms)
    ensures IsAmount(state.accruedFees)
  {
    ValidEconomicsMeans(state, terms);
  }

  lemma TransitionBrings(operation: Operation, amount: int, bound: int, state: State, terms: Terms)
    requires Transition(operation, amount, bound, state, terms, false).Ok?
    ensures
      var r := Transition(operation, amount, bound, state, terms, false).value;
      && 1 <= amount && IsAmount(amount) && 1 <= bound && IsAmount(bound) && ValidEconomics(r.successor, terms)
      && r.successor.vaultPolicy == state.vaultPolicy && r.shareMint != 0 && (IsAmount(r.shareMint) || IsAmount(-r.shareMint))
      && IsAmount(Economic(r.quote)) && r.quote.operation == operation
  {
    hide ValidEconomics, AssertEnabled, CeilDiv, FeeTotal, FeeRaw, WithinBound;
  }

  /** An immediate operation can be planned exactly when it executes, and its receiver exists and has room for the top-up. */
  lemma DirectMeans(
    context: Context, input: ProtectedInput, state: State, operation: Operation, amount: int, bound: int, receiver: Destination, topup: int)
    requires ResolveState(context, input, Ctvs1) == Ok(state)
    ensures BuildDirectPlan(context, input, operation, amount, bound, receiver, topup).Ok? <==>
      var step := Transition(operation, amount, bound, state, context.terms, false);
      && IsAmount(topup) && step.Ok? && IsLocated(receiver.address) && Differ(context.deployment.configRef, input.ref)
      && (context.terms.underlying == Ada && !operation.IsEntry() ==> IsAmount(step.value.quote.netAssets + topup))
  {
    hide ResolveState, IsDeployed, IsHex, IsNamed, ValidEconomics, IsAt, Differ, Lower, IsLocated, ValueOf, Output, ValidOutput, Transition,
      BuildDirectPlan, StateUpdate, CreatePlan, SupplyMint, IsOwnMint, TokenHex, IsAction;
    ResolvedBrings(context, input, Ctvs1, state);
    DirectIsItsTransition(context, input, operation, amount, bound, receiver, topup);
    var step := Transition(operation, amount, bound, state, context.terms, false);
    if IsAmount(topup) && step.Ok? {
      var r := step.value;
      var asset := if operation.IsEntry() then OwnAsset(context.deployment.policy, ShareToken) else context.terms.underlying;
      TransitionBrings(operation, amount, bound, state, context.terms);
      NameIsNamed(context.deployment.policy, ShareToken);
      StateUpdateExists(context, r.successor);
      PaymentExists(ReceiverOutput, receiver, asset, Economic(r.quote), topup);
      BatchMintIsOwn(context.deployment, r.shareMint, input.ref);
      var received := ValueOf([(asset, Economic(r.quote)), (Ada, topup)]);
      if received.Ok? && IsLocated(receiver.address) {
        var output := Output(ReceiverOutput, receiver, received.value, None).value;
        var action := Direct(operation, receiver, amount, bound, 0, 1);
        DirectIsAction(action);
        var plan := Plan(
          DirectOperation(operation), context.deployment, [PlanInput(input.ref, StateInput, Some(StateAction(action)))],
          [context.deployment.configRef], [StateUpdate(context, r.successor).value, output],
          [SupplyMint(context.deployment.policy, r.shareMint, input.ref)], [], None);
        LoneStateIsIntent(plan, context.deployment, input.ref, action);
      }
    }
  }

  lemma DirectIsAction(action: StateRedeemer)
    requires action.Direct? && IsLocated(action.receiver.address) && 1 <= action.amount && IsAmount(action.amount)
    requires 1 <= action.bound && IsAmount(action.bound) && action.stateOutput == 0 && action.receiverOutput == 1
    ensures IsAction(StateAction(action))
  {
  }
}
