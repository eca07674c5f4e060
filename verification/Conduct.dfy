/** What each planner takes, does and signs, spelled out over whole plans: gates, flows, layouts and authority. */
module Conduct {
  import opened Results
  import opened Types
  import opened Arithmetic
  import opened HexStrings
  import opened References
  import opened Values
  import opened Quotes
  import opened Transitions
  import opened Planning
  import opened Settlement
  import opened Planners
  import opened Batches

  datatype Flow = Gross | Net | Shares | Fee | Reward

  function FlowOf(s: SettledRequest, flow: Flow): int {
    match flow
    case Gross => s.quote.grossAssets
    case Net => s.quote.netAssets
    case Shares => s.quote.shares
    case Fee => s.quote.fee
    case Reward => s.request.body.settlerFee
  }

  /** One flow added up over the settled requests of one kind. */
  function FlowSum(settled: seq<SettledRequest>, kind: RequestKind, flow: Flow): int {
    if settled == [] then 0
    else
      var last := settled[|settled| - 1];
      FlowSum(settled[..|settled| - 1], kind, flow) + if last.request.body.kind == kind then FlowOf(last, flow) else 0
  }

  /** The mutated totals are the eight sums they stand for. */
  lemma {:induction false} TotalsAreSums(settled: seq<SettledRequest>)
    ensures
      TotalsOf(settled) == Totals(
        FlowSum(settled, DepositRequest, Gross), FlowSum(settled, DepositRequest, Net),
        FlowSum(settled, RedeemRequest, Gross), FlowSum(settled, RedeemRequest, Net),
        FlowSum(settled, DepositRequest, Shares), FlowSum(settled, RedeemRequest, Shares),
        FlowSum(settled, DepositRequest, Fee) + FlowSum(settled, RedeemRequest, Fee),
        FlowSum(settled, DepositRequest, Reward) + FlowSum(settled, RedeemRequest, Reward))
  {
    if settled != [] {
      TotalsAreSums(settled[..|settled| - 1]);
    }
  }

  /** Each settled request is charged at the rate of its own direction. */
  predicate FairlyCharged(s: SettledRequest, terms: Terms) {
    match s.request.body.kind
    case DepositRequest => ChargesGross(s.quote.fee, s.quote.grossAssets, terms.entryBps)
    case RedeemRequest => ChargesGross(s.quote.fee, s.quote.grossAssets, terms.exitBps)
  }

  lemma SettledIsFairlyCharged(s: SettledRequest, state: State, terms: Terms)
    requires SettlementQuote(s.request.body, state, terms) == Ok(s.quote)
    ensures FairlyCharged(s, terms)
  {
    hide Preview, AssertEnabled, ChargesGross;
    PreviewIsTheQuote(s.quote, state, terms);
  }

  lemma SuccessorAccounts(state: State, terms: Terms, settled: seq<SettledRequest>, after: State)
    requires BatchSuccessor(state, terms, TotalsOf(settled)) == Ok(after)
    ensures
      && after == state.(
           sequence := state.sequence + 1,
           backingAssets := state.backingAssets + FlowSum(settled, DepositRequest, Net) - FlowSum(settled, RedeemRequest, Gross),
           economicSupply := state.economicSupply + FlowSum(settled, DepositRequest, Shares) - FlowSum(settled, RedeemRequest, Shares),
           accruedFees := state.accruedFees + FlowSum(settled, DepositRequest, Fee) + FlowSum(settled, RedeemRequest, Fee))
      && FlowSum(settled, RedeemRequest, Shares) <= state.economicSupply
  {
    hide TotalsOf, FlowSum, ValidateEconomics;
    TotalsAreSums(settled);
  }

  /**
   * The State after a batch, from its settled requests: backing takes the net deposits and gives the gross redemptions,
   * supply takes what is issued and gives what is burned, and fees grow by each request's own charge.
   */
  lemma BatchAccounts(options: BatchOptions, requests: seq<BatchRequest>, state: State)
    requires BuildBatch(options, requests).Ok? && options.stateInput.datum == StateDatum(state)
    ensures
      var batch := BuildBatch(options, requests).value;
      var settled, after := batch.settled, batch.successor;
      && after == state.(
           sequence := state.sequence + 1,
           backingAssets := state.backingAssets + FlowSum(settled, DepositRequest, Net) - FlowSum(settled, RedeemRequest, Gross),
           economicSupply := state.economicSupply + FlowSum(settled, DepositRequest, Shares) - FlowSum(settled, RedeemRequest, Shares),
           accruedFees := state.accruedFees + FlowSum(settled, DepositRequest, Fee) + FlowSum(settled, RedeemRequest, Fee))
      && FlowSum(settled, RedeemRequest, Shares) <= state.economicSupply
      && forall s <- settled :: FairlyCharged(s, options.context.terms)
  {
    hide BuildBatch, AssembleBatch, Settlements, SettleRequest, ResolveBatch, ResolveState, SortedReferences, TotalsOf, BatchOutputs,
      SettlementQuote, FlowSum, FairlyCharged, BatchSuccessor, SupplyMint;
    var batch := BuildBatch(options, requests).value;
    var resolved, sorted := BatchParts(options, requests);
    AssembledParts(options, resolved, batch.settled);
    SuccessorAccounts(resolved, options.context.terms, batch.settled, batch.successor);
    BatchRequestsAreSettled(options, resolved, sorted, batch.settled);
    forall s <- batch.settled ensures FairlyCharged(s, options.context.terms) {
      SettledIsFairlyCharged(s, resolved, options.context.terms);
    }
  }

  /** A request is priced in a direction that the vault advertises asynchronously and has not paused. */
  lemma SettlementRuns(body: RequestBody, state: State, terms: Terms)
    requires SettlementQuote(body, state, terms).Ok?
    ensures match body.kind
            case DepositRequest => Advertises(terms.executionModes, true, true) && state.pauseFlags in {0, 2}
            case RedeemRequest => Advertises(terms.executionModes, false, true) && state.pauseFlags in {0, 1}
  {
    hide Preview, AssertEnabled;
    EnabledMeans(state, terms, body.kind.DepositRequest?, true);
  }

  /** A request is priced under any flags exactly when its direction runs and it is priced unpaused, at the same quote. */
  lemma SettlementPauses(body: RequestBody, state: State, flags: int, terms: Terms)
    requires 0 <= flags <= 3
    ensures
      var paused := SettlementQuote(body, state.(pauseFlags := flags), terms);
      var unpaused := SettlementQuote(body, state.(pauseFlags := 0), terms);
      && (paused.Ok? <==> unpaused.Ok? && flags in (if body.kind == DepositRequest then {0, 2} else {0, 1}))
      && (paused.Ok? ==> paused == unpaused)
  {
    var now, free := state.(pauseFlags := flags), state.(pauseFlags := 0);
    assert Preview(OperationOf(body.kind), body.offered, now, terms) == Preview(OperationOf(body.kind), body.offered, free, terms);
    hide Preview, RawQuote, AssertEnabled;
    if Preview(OperationOf(body.kind), body.offered, free, terms).Ok? {
      EnabledMeans(now, terms, body.kind.DepositRequest?, true);
      EnabledMeans(free, terms, body.kind.DepositRequest?, true);
    }
  }

  lemma CustodyIgnoresFlags(state: State, flags: int, terms: Terms)
    ensures StateValue(state.(pauseFlags := flags), terms) == StateValue(state, terms)
  {
  }

  lemma ShapeIgnoresFlags(state: State, flags: int, terms: Terms)
    requires 0 <= flags <= 3
    ensures StateShape(state.(pauseFlags := flags)) <==> StateShape(state.(pauseFlags := 0))
    ensures ValidEconomics(state.(pauseFlags := flags), terms) <==> ValidEconomics(state.(pauseFlags := 0), terms)
  {
    hide ParseHexOf;
  }

  /** A State input resolves under any flags exactly when it would unpaused. */
  lemma ResolvesUnderFlags(context: Context, input: ProtectedInput, state: State, flags: int, family: Family)
    requires 0 <= flags <= 3
    ensures
      var now := ResolveState(context, input.(datum := StateDatum(state.(pauseFlags := flags))), family);
      var free := ResolveState(context, input.(datum := StateDatum(state.(pauseFlags := 0))), family);
      && (now.Ok? <==> free.Ok?)
      && (now.Ok? ==> now.value == state.(pauseFlags := flags) && free.value == state.(pauseFlags := 0))
  {
    hide ConsistentContext, StateShape, ValidEconomics, StateValue, AssertSameValue, IsReference, SameHex, IsActual;
    ShapeIgnoresFlags(state, flags, context.terms);
    CustodyIgnoresFlags(state, flags, context.terms);
    CustodyIgnoresFlags(state, 0, context.terms);
  }

  lemma UpdateIgnoresFlags(context: Context, state: State, flags: int)
    ensures
      var now, free := StateUpdate(context, state.(pauseFlags := flags)), StateUpdate(context, state.(pauseFlags := 0));
      && (now.Ok? <==> free.Ok?)
      && (now.Ok? ==> now.value == free.value.(datum := Some(StateDatum(state.(pauseFlags := flags)))))
  {
    hide StateValue, IsAddress;
    CustodyIgnoresFlags(state, flags, context.terms);
    CustodyIgnoresFlags(state, 0, context.terms);
  }

  /** The plan of a direct operation once its transition is known. */
  function DirectPlanOf(
    context: Context, ref: OutRef, operation: Operation, amount: int, bound: int, receiver: Destination, topup: int,
    r: TransitionResult): Result<StatePlan>
  {
    var Context(deployment, terms, _) := context;
    var asset := if operation.IsEntry() then OwnAsset(deployment.policy, ShareToken) else terms.underlying;
    var stateOutput :- StateUpdate(context, r.successor);
    var received :- ValueOf([(asset, Economic(r.quote)), (Ada, topup)]);
    var receiverOutput :- Output(ReceiverOutput, receiver, received, None);
    var plan :- CreatePlan(Plan(
      DirectOperation(operation), deployment,
      [PlanInput(ref, StateInput, Some(StateAction(Direct(operation, receiver, amount, bound, 0, 1))))],
      [deployment.configRef], [stateOutput, receiverOutput], [SupplyMint(deployment.policy, r.shareMint, ref)], [], None));
    Ok(StatePlan(plan, r.successor))
  }

  /** A direct plan resolves its State, executes the operation immediately, and is laid out from the result alone. */
  lemma DirectIsItsTransition(
    context: Context, input: ProtectedInput, operation: Operation, amount: int, bound: int, receiver: Destination, topup: int)
    ensures
      var plan := BuildDirectPlan(context, input, operation, amount, bound, receiver, topup);
      var state := ResolveState(context, input, Ctvs1);
      && (plan.Ok? ==> state.Ok? && 0 <= topup <= 9_223_372_036_854_775_807)
      && (state.Ok? && 0 <= topup <= 9_223_372_036_854_775_807 ==>
            var step := Transition(operation, amount, bound, state.value, context.terms, false);
            && (plan.Ok? ==> step.Ok?)
            && (step.Ok? ==> plan == DirectPlanOf(context, input.ref, operation, amount, bound, receiver, topup, step.value)))
  {
    hide ResolveState, Transition, StateUpdate, ValueOf, Output, CreatePlan, SupplyMint, OwnAsset, Economic;
  }

  lemma ValidPlanIgnoresDatums(plan: Plan, other: Plan)
    requires ValidPlan(plan) && |other.outputs| == |plan.outputs| && other == plan.(outputs := other.outputs)
    requires forall i :: 0 <= i < |plan.outputs| ==> other.outputs[i] == plan.outputs[i].(datum := other.outputs[i].datum)
    ensures ValidPlan(other)
  {
    hide RoleMatches, IsReference, RefId, ValidMint, ValidSigners, FiniteValidity, Ids, IsActual, IsAddress;
    forall i | 0 <= i < |other.outputs| ensures ValidOutput(other.outputs[i]) {
      assert ValidOutput(plan.outputs[i]);
    }
  }

  lemma DirectPlanIgnoresFlags(
    context: Context, ref: OutRef, operation: Operation, amount: int, bound: int, receiver: Destination, topup: int,
    r: TransitionResult, flags: int)
    ensures
      var now := DirectPlanOf(context, ref, operation, amount, bound, receiver, topup, r.(successor := r.successor.(pauseFlags := flags)));
      var free := DirectPlanOf(context, ref, operation, amount, bound, receiver, topup, r.(successor := r.successor.(pauseFlags := 0)));
      && (now.Ok? <==> free.Ok?)
      && (now.Ok? ==>
            && |now.value.plan.outputs| == |free.value.plan.outputs| == 2
            && now.value.plan.outputs[1] == free.value.plan.outputs[1] && now.value.plan.mint == free.value.plan.mint)
  {
    hide StateUpdate, ValueOf, Output, ValidPlan, SupplyMint, OwnAsset;
    UpdateIgnoresFlags(context, r.successor, flags);
    var now := DirectPlanOf(context, ref, operation, amount, bound, receiver, topup, r.(successor := r.successor.(pauseFlags := flags)));
    var free := DirectPlanOf(context, ref, operation, amount, bound, receiver, topup, r.(successor := r.successor.(pauseFlags := 0)));
    forall a: Plan, b: Plan
      | ValidPlan(a) && |b.outputs| == |a.outputs| && b == a.(outputs := b.outputs)
        && forall i :: 0 <= i < |a.outputs| ==> b.outputs[i] == a.outputs[i].(datum := b.outputs[i].datum)
      ensures ValidPlan(b)
    {
      ValidPlanIgnoresDatums(a, b);
    }
  }

  /**
   * End to end, a pause stops exactly its own direction of immediate operations: under any flags a direct plan exists if
   * and only if its direction runs and it exists unpaused, and then it pays the receiver and mints the same.
   */
  lemma PauseGatesDirect(
    context: Context, input: ProtectedInput, state: State, flags: int, operation: Operation, amount: int, bound: int,
    receiver: Destination, topup: int)
    requires 0 <= flags <= 3
    ensures
      var now := BuildDirectPlan(
        context, input.(datum := StateDatum(state.(pauseFlags := flags))), operation, amount, bound, receiver, topup);
      var free := BuildDirectPlan(
        context, input.(datum := StateDatum(state.(pauseFlags := 0))), operation, amount, bound, receiver, topup);
      && (now.Ok? <==> free.Ok? && flags in (if operation == Deposit || operation == Mint then {0, 2} else {0, 1}))
      && (now.Ok? ==>
            && |now.value.plan.outputs| == |free.value.plan.outputs| == 2
            && now.value.plan.outputs[1] == free.value.plan.outputs[1] && now.value.plan.mint == free.value.plan.mint)
  {
    hide BuildDirectPlan, ResolveState, Transition, DirectPlanOf;
    var now, free := input.(datum := StateDatum(state.(pauseFlags := flags))), input.(datum := StateDatum(state.(pauseFlags := 0)));
    ResolvesUnderFlags(context, input, state, flags, Ctvs1);
    DirectIsItsTransition(context, now, operation, amount, bound, receiver, topup);
    DirectIsItsTransition(context, free, operation, amount, bound, receiver, topup);
    PauseStopsOneDirection(operation, amount, bound, state, flags, context.terms, false);
    var step := Transition(operation, amount, bound, state.(pauseFlags := 0), context.terms, false);
    if step.Ok? {
      DirectPlanIgnoresFlags(context, input.ref, operation, amount, bound, receiver, topup, step.value, flags);
      FreeStaysFree(operation, amount, bound, state, context.terms);
    }
  }

  lemma FreeStaysFree(operation: Operation, amount: int, bound: int, state: State, terms: Terms)
    requires Transition(operation, amount, bound, state.(pauseFlags := 0), terms, false).Ok?
    ensures
      var r := Transition(operation, amount, bound, state.(pauseFlags := 0), terms, false).value;
      r == r.(successor := r.successor.(pauseFlags := 0))
  {
    hide Preview, ValidEconomics, AssertEnabled;
  }

  /** A pause plan is signed by the key of the Terms, and changes the flags and the sequence of the State alone. */
  lemma SetPauseSets(family: Family, context: Context, stateInput: ProtectedInput, state: State, flags: int, sp: StatePlan)
    requires CreateSetPausePlan(family, context, stateInput, flags) == Ok(sp) && ResolveState(context, stateInput, family) == Ok(state)
    ensures flags in {0, 1, 2, 3} && context.terms.pauseKey.Some?
    ensures sp.successor == state.(sequence := state.sequence + 1, pauseFlags := flags)
    ensures StateUpdate(context, sp.successor).Ok?
    ensures sp.plan == Plan(
      SetPauseOperation, context.deployment,
      [PlanInput(stateInput.ref, StateInput, Some(StateAction(SetPause(flags, 0))))], [context.deployment.configRef],
      [StateUpdate(context, sp.successor).value], [], [context.terms.pauseKey.value], None)
  {
    hide ResolveState, ValidPlan, StateUpdate, ValidEconomics;
  }

  /** A top-up adds its positive lovelace to the reserve and changes the sequence of the State; nobody has to sign for it. */
  lemma TopUpAdds(family: Family, context: Context, stateInput: ProtectedInput, state: State, additional: int, sp: StatePlan)
    requires CreateTopUpPlan(family, context, stateInput, additional) == Ok(sp) && ResolveState(context, stateInput, family) == Ok(state)
    ensures 1 <= additional <= 9_223_372_036_854_775_807
    ensures sp.successor == state.(sequence := state.sequence + 1, storageLovelace := state.storageLovelace + additional)
    ensures StateUpdate(context, sp.successor).Ok?
    ensures sp.plan == Plan(
      TopUpOperation, context.deployment,
      [PlanInput(stateInput.ref, StateInput, Some(StateAction(TopUpReserve(additional, 0))))], [context.deployment.configRef],
      [StateUpdate(context, sp.successor).value], [], [], None)
  {
    hide ResolveState, ValidPlan, StateUpdate, ValidEconomics;
  }

  /** Fees are collected only when there are any, by anyone, into outputs 0 and 1. */
  lemma CollectFeesLayout(family: Family, context: Context, stateInput: ProtectedInput, state: State, topup: int, sp: StatePlan)
    requires CreateCollectFeesPlan(family, context, stateInput, topup) == Ok(sp) && ResolveState(context, stateInput, family) == Ok(state)
    ensures 1 <= state.accruedFees && 0 <= topup <= 9_223_372_036_854_775_807 && |sp.plan.outputs| == 2
    ensures StateUpdate(context, sp.successor) == Ok(sp.plan.outputs[0]) && PaysTo(sp.plan.outputs[1], context.terms.feeDestination)
    ensures sp.plan == Plan(
      CollectFeesOperation, context.deployment,
      [PlanInput(stateInput.ref, StateInput, Some(StateAction(CollectFees(0, 1))))], [context.deployment.configRef],
      sp.plan.outputs, [], [], None)
  {
    hide ResolveState, ValidPlan, StateUpdate, ValidEconomics, ValueOf, IsAddress;
  }

  /** A direct plan spends the State alone, with a redeemer that carries the user's own request, and no one else signs. */
  lemma DirectLayout(
    context: Context, input: ProtectedInput, operation: Operation, amount: int, bound: int, receiver: Destination, topup: int, sp: StatePlan)
    requires BuildDirectPlan(context, input, operation, amount, bound, receiver, topup) == Ok(sp)
    ensures |sp.plan.outputs| == 2 && StateUpdate(context, sp.successor) == Ok(sp.plan.outputs[0]) && PaysTo(sp.plan.outputs[1], receiver)
    ensures sp.plan == Plan(
      DirectOperation(operation), context.deployment,
      [PlanInput(input.ref, StateInput, Some(StateAction(Direct(operation, receiver, amount, bound, 0, 1))))],
      [context.deployment.configRef], sp.plan.outputs, sp.plan.mint, [], None)
  {
    hide ResolveState, Transition, ValidPlan, StateUpdate, ValueOf, SupplyMint, IsAddress, OwnAsset, Economic, IsActual;
  }

  /** After a planned pause, what a direct plan or a settlement may still do is what the flags leave running. */
  lemma PausedVaultRefuses(
    family: Family, context: Context, stateInput: ProtectedInput, flags: int, sp: StatePlan, next: ProtectedInput, operation: Operation,
    amount: int, bound: int, receiver: Destination, topup: int, body: RequestBody)
    requires CreateSetPausePlan(family, context, stateInput, flags) == Ok(sp) && next.datum == StateDatum(sp.successor)
    ensures BuildDirectPlan(context, next, operation, amount, bound, receiver, topup).Ok? ==>
      flags in (if operation == Deposit || operation == Mint then {0, 2} else {0, 1})
    ensures SettlementQuote(body, sp.successor, context.terms).Ok? ==> flags in (if body.kind == DepositRequest then {0, 2} else {0, 1})
  {
    hide CreateSetPausePlan, ResolveState, BuildDirectPlan, SettlementQuote, StateUpdate;
    PausePlanResolves(family, context, stateInput, flags);
    var state := ResolveState(context, stateInput, family).value;
    SetPauseSets(family, context, stateInput, state, flags, sp);
    PauseGatesDirect(context, next, sp.successor, flags, operation, amount, bound, receiver, topup);
    assert next == next.(datum := StateDatum(sp.successor.(pauseFlags := flags)));
    SettlementPauses(body, sp.successor, flags, context.terms);
  }

  lemma PausePlanResolves(family: Family, context: Context, stateInput: ProtectedInput, flags: int)
    requires CreateSetPausePlan(family, context, stateInput, flags).Ok?
    ensures ResolveState(context, stateInput, family).Ok? && 0 <= flags <= 3
  {
    hide ResolveState, PlanStateChange;
  }

  /** The authority of a batch: under a settler set a member, in any spelling, and in every case the reward key signs. */
  lemma BatchAuthority(options: BatchOptions, requests: seq<BatchRequest>)
    requires BuildBatch(options, requests).Ok?
    ensures
      var batch, settlers := BuildBatch(options, requests).value, options.context.terms.settlers;
      && ParseHex(options.rewardKey).Ok? && |ParseHex(options.rewardKey).value| == 28
      && (settlers.Some? ==> exists i :: 0 <= i < |settlers.value| && Lower(settlers.value[i]) == Lower(options.rewardKey))
      && batch.plan.requiredSigners == [options.rewardKey] && batch.plan.validity == Some(options.validity)
      && 0 <= options.validity.lowerPosixMs < options.validity.upperPosixMs <= 9_223_372_036_854_775_807
      && 1 <= |requests| <= 16 && |requests| <= options.context.terms.maxBatch
  {
    hide ResolveState, Settlements, BatchSuccessor, BatchOutputs, ValidPlan, ParseHex, Lower, TotalsOf, Entries;
    var state, sorted := BatchParts(options, requests);
    SortedReferencesIsCanonical(requests, requests, RequestRef);
    assert |multiset(sorted)| == |multiset(requests)|;
  }

  /** The layout of a batch: State first, then one Claim a request in reference order, then the reward if there is one. */
  lemma BatchLayout(options: BatchOptions, requests: seq<BatchRequest>)
    requires BuildBatch(options, requests).Ok? && options.context.deployment.claimScript.Some?
    ensures
      var batch := BuildBatch(options, requests).value;
      var plan, settled, stateRef := batch.plan, batch.settled, options.stateInput.ref;
      var reward := FlowSum(settled, DepositRequest, Reward) + FlowSum(settled, RedeemRequest, Reward);
      && plan.operation == BatchOperation && plan.deployment == options.context.deployment
      && plan.referenceInputs == [options.context.deployment.configRef] && batch.pricingBasis == stateRef
      && |plan.inputs| == 1 + |settled| && plan.inputs[0].ref == stateRef && plan.inputs[0].redeemer.Some?
      && plan.inputs[0].redeemer.value.StateAction? && plan.inputs[0].redeemer.value.state.Batch?
      && (var action := plan.inputs[0].redeemer.value.state;
          && action.stateOutput == 0 && action.rewardKey == options.rewardKey && |action.entries| == |settled|
          && action.rewardOutput == (if reward > 0 then Some(1 + |settled|) else None)
          && forall i :: 0 <= i < |settled| ==>
               action.entries[i] == SettleEntry(settled[i].source.ref, i + 1, settled[i].claimTopup))
      && (forall i :: 0 <= i < |settled| ==>
            plan.inputs[i + 1] == PlanInput(settled[i].source.ref, RequestInput, Some(RequestAction(Acknowledge(stateRef)))))
      && |plan.outputs| == 1 + |settled| + (if reward > 0 then 1 else 0)
      && (reward == 0 ==> options.rewardTopup == 0)
      && (reward > 0 ==>
            var payout := plan.outputs[1 + |settled|];
            && payout.address == Address(Credential(Key, options.rewardKey), None) && payout.datum == None
            && forall a :: Qty(payout.value, a) == When(a == Ada, reward + options.rewardTopup))
  {
    hide BuildBatch, ResolveState, ResolveBatch, SortedReferences, Settlements, BatchSuccessor, ValidPlan, TotalsOf, ClaimOutputs, StateValue,
      FlowSum, Qty;
    var batch := BuildBatch(options, requests).value;
    var state, sorted := BatchParts(options, requests);
    TotalsAreSums(batch.settled);
    AssembledParts(options, state, batch.settled);
    RewardIsExact(options, batch.successor, batch.settled, TotalsOf(batch.settled).reward);
  }

  lemma RewardIsExact(options: BatchOptions, successor: State, settled: seq<SettledRequest>, reward: int)
    requires options.context.deployment.claimScript.Some? && BatchOutputs(options, successor, settled, reward).Ok?
    ensures reward == 0 ==> options.rewardTopup == 0
    ensures reward > 0 ==>
      var payout := BatchOutputs(options, successor, settled, reward).value[1 + |settled|];
      && payout.address == Address(Credential(Key, options.rewardKey), None) && payout.datum == None
      && forall a :: Qty(payout.value, a) == When(a == Ada, reward + options.rewardTopup)
  {
    hide ClaimOutputs, StateValue, ValueOf, IsAddress, EntrySum;
    if reward > 0 {
      var entries := [(Ada, reward + options.rewardTopup)];
      var payout := BatchOutputs(options, successor, settled, reward).value[1 + |settled|];
      ValueOfMeans(entries);
      AdaIsItself();
      forall a ensures Qty(payout.value, a) == When(a == Ada, reward + options.rewardTopup) {
        SumOfOne(entries[0], a);
      }
    }
  }

  /** Every flow of a batch fits the ledger's quantities: each direction's, and the fees and rewards of both. */
  predicate FlowsFit(settled: seq<SettledRequest>) {
    && DirectionFits(settled, DepositRequest) && DirectionFits(settled, RedeemRequest)
    && FlowSum(settled, DepositRequest, Fee) + FlowSum(settled, RedeemRequest, Fee) <= 9_223_372_036_854_775_807
    && FlowSum(settled, DepositRequest, Reward) + FlowSum(settled, RedeemRequest, Reward) <= 9_223_372_036_854_775_807
  }

  predicate DirectionFits(settled: seq<SettledRequest>, kind: RequestKind) {
    && FlowSum(settled, kind, Gross) <= 9_223_372_036_854_775_807
    && FlowSum(settled, kind, Net) <= 9_223_372_036_854_775_807
    && FlowSum(settled, kind, Shares) <= 9_223_372_036_854_775_807
  }

  predicate HasFlows(s: SettledRequest) {
    0 <= s.quote.grossAssets && 0 <= s.quote.netAssets && 0 <= s.quote.shares && 0 <= s.quote.fee && 0 <= s.request.body.settlerFee
  }

  lemma SettledHasFlows(
    candidate: BatchRequest, deployment: Deployment, state: State, stateRef: OutRef, terms: Terms, upperPosixMs: int)
    requires SettleRequest(candidate, deployment, state, stateRef, terms, upperPosixMs).Ok?
    ensures HasFlows(SettleRequest(candidate, deployment, state, stateRef, terms, upperPosixMs).value)
  {
    hide SameHex, RequestValue, AssertSameValue, AssertProtectedInput, RecoveryShape, Preview, AssertEnabled, ClaimOf, IsAddress;
  }

  lemma {:induction false} FlowsAreNonnegative(settled: seq<SettledRequest>, kind: RequestKind, flow: Flow)
    requires forall i :: 0 <= i < |settled| ==> HasFlows(settled[i])
    ensures 0 <= FlowSum(settled, kind, flow)
  {
    if settled != [] {
      FlowsAreNonnegative(settled[..|settled| - 1], kind, flow);
    }
  }

  lemma RangeIsFlows(settled: seq<SettledRequest>)
    requires forall i :: 0 <= i < |settled| ==> HasFlows(settled[i])
    ensures TotalsInRange(TotalsOf(settled)) <==> FlowsFit(settled)
  {
    hide TotalsOf, FlowSum;
    TotalsAreSums(settled);
    forall kind, flow ensures 0 <= FlowSum(settled, kind, flow) {
      FlowsAreNonnegative(settled, kind, flow);
    }
  }

  lemma FewerFlowsFit(settled: seq<SettledRequest>)
    requires settled != [] && FlowsFit(settled) && forall i :: 0 <= i < |settled| ==> HasFlows(settled[i])
    ensures FlowsFit(settled[..|settled| - 1])
  {
    var earlier, last := settled[..|settled| - 1], settled[|settled| - 1];
    forall kind, flow ensures FlowSum(earlier, kind, flow) <= FlowSum(settled, kind, flow) {
      assert HasFlows(last);
    }
  }

  /** Requests settle together exactly when each settles alone and their flows fit; no running total asks for more. */
  lemma {:induction false} SettlementsMean(
    sorted: seq<BatchRequest>, deployment: Deployment, state: State, stateRef: OutRef, terms: Terms, upperPosixMs: int,
    settled: seq<SettledRequest>)
    ensures Settlements(sorted, deployment, state, stateRef, terms, upperPosixMs) == Ok(settled) <==>
      && |settled| == |sorted| && FlowsFit(settled)
      && forall i :: 0 <= i < |sorted| ==>
           SettleRequest(sorted[i], deployment, state, stateRef, terms, upperPosixMs) == Ok(settled[i])
  {
    hide SettleRequest, TotalsOf, FlowSum, FlowsFit, TotalsInRange, HasFlows;
    if |settled| == |sorted| &&
      forall i :: 0 <= i < |sorted| ==> SettleRequest(sorted[i], deployment, state, stateRef, terms, upperPosixMs) == Ok(settled[i])
    {
      forall i | 0 <= i < |settled| ensures HasFlows(settled[i]) {
        SettledHasFlows(sorted[i], deployment, state, stateRef, terms, upperPosixMs);
      }
      RangeIsFlows(settled);
      if sorted != [] {
        var n := |sorted| - 1;
        assert settled == settled[..n] + [settled[n]];
        SettlementsMean(sorted[..n], deployment, state, stateRef, terms, upperPosixMs, settled[..n]);
        if FlowsFit(settled) {
          FewerFlowsFit(settled);
        }
      } else {
        NothingFits();
      }
    } else if Settlements(sorted, deployment, state, stateRef, terms, upperPosixMs) == Ok(settled) {
      SettlementsAreIndividual(sorted, deployment, state, stateRef, terms, upperPosixMs);
    }
  }

  lemma NothingFits()
    ensures FlowsFit([])
  {
  }
}
