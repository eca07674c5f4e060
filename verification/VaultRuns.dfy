/** Whole runs of a vault on the ledger, from its genesis through any sequence of planned and wallet transactions. */
module VaultRuns {
  import opened Results
  import opened Types
  import opened Arithmetic
  import opened HexStrings
  import opened References
  import opened Values
  import opened Quotes
  import opened Transitions
  import opened Planning
  import opened Settlement
  import opened Planners
  import opened Batches
  import opened Ledger

  /** The ledger with the vault's current State output. */
  datatype World = World(utxos: Utxos, stateRef: OutRef, state: State)

  /** One accepted transaction, with the planner arguments it realizes. */
  datatype Step =
    | DirectStep(operation: Operation, amount: int, bound: int, receiver: Destination, topup: int)
    | BatchStep(rewardKey: Hex, validity: TimeBounds, rewardTopup: int, requests: seq<BatchRequest>)
    | CollectFeesStep(topup: int)
    | TopUpStep(additional: int)
    | SetPauseStep(flags: int)
    | RequestStep(request: Request)
    | RefundStep(source: ProtectedInput, mode: RefundMode, validity: TimeBounds)
    | DeliverStep(claims: seq<ProtectedInput>)
    | WalletStep

  function Token(context: Context, token: TokenName): Asset {
    AssetId(OwnAsset(context.deployment.policy, token))
  }

  /** The evidence a planner is given about the current State. */
  function StateEvidence(w: World): ProtectedInput
    requires w.stateRef in w.utxos
  {
    ProtectedInput(w.stateRef, w.utxos[w.stateRef].address, StateDatum(w.state), w.utxos[w.stateRef].value)
  }

  /** The plan of a step that consumes the State. */
  function StatePlanOf(w: World, context: Context, step: Step): Result<StatePlan>
    requires w.stateRef in w.utxos
  {
    var input, family := StateEvidence(w), context.deployment.family;
    match step
    case DirectStep(operation, amount, bound, receiver, topup) =>
      BuildDirectPlan(context, input, operation, amount, bound, receiver, topup)
    case BatchStep(rewardKey, validity, rewardTopup, requests) =>
      var batch :- BuildBatch(BatchOptions(context, input, rewardKey, validity, rewardTopup), requests);
      Ok(StatePlan(batch.plan, batch.successor))
    case CollectFeesStep(topup) => CreateCollectFeesPlan(family, context, input, topup)
    case TopUpStep(additional) => CreateTopUpPlan(family, context, input, additional)
    case SetPauseStep(flags) => CreateSetPausePlan(family, context, input, flags)
    case _ => Err(UnsupportedOperation)
  }

  /** The plan of a step that leaves the State alone. */
  function SidePlanOf(context: Context, step: Step): Result<Plan> {
    match step
    case RequestStep(request) => BuildRequestPlan(context, request)
    case RefundStep(source, mode, validity) => RefundPlan(context.deployment, source, mode, validity)
    case DeliverStep(claims) => BuildDeliverPlan(context.deployment, claims)
    case _ => Err(UnsupportedOperation)
  }

  predicate EvidenceAgrees(w: World, step: Step) {
    match step
    case BatchStep(_, _, _, requests) => forall i :: 0 <= i < |requests| ==> Agrees(w.utxos, requests[i].input)
    case RefundStep(source, _, _) => Agrees(w.utxos, source)
    case DeliverStep(claims) => forall i :: 0 <= i < |claims| ==> Agrees(w.utxos, claims[i])
    case _ => true
  }

  /** A wallet transaction spends key-held outputs and mints nothing under the vault's policy. */
  predicate IsWalletTx(w: World, context: Context, tx: LedgerTx) {
    && (forall ref <- tx.inputs :: ref in w.utxos && w.utxos[ref].address.payment.kind.Key?)
    && forall i :: 0 <= i < |tx.mint| ==> Lower(tx.mint[i].policy) != Lower(context.deployment.policy)
  }

  predicate ChangesState(step: Step) {
    step.DirectStep? || step.BatchStep? || step.CollectFeesStep? || step.TopUpStep? || step.SetPauseStep?
  }

  /** The transition relation: a balanced transaction that realizes the step's plan on evidence from this ledger. */
  ghost predicate Next(w: World, context: Context, step: Step, tx: LedgerTx, w': World) {
    && Balanced(w.utxos, tx)
    && EvidenceAgrees(w, step)
    && w'.utxos == Apply(w.utxos, tx)
    && if ChangesState(step) then
         && w.stateRef in w.utxos
         && StatePlanOf(w, context, step).Ok?
         && (var StatePlan(plan, successor) := StatePlanOf(w, context, step).value;
             && Realizes(w.utxos, tx, plan)
             && w'.stateRef == OutRef(tx.id, 0)
             && w'.state == successor)
       else
         && w'.stateRef == w.stateRef && w'.state == w.state
         && if step.WalletStep? then IsWalletTx(w, context, tx)
            else SidePlanOf(context, step).Ok? && Realizes(w.utxos, tx, SidePlanOf(context, step).value)
  }

  /**
   * What holds of every reachable ledger: the State output sits at the vault's script with its datum and exactly
   * its closed custody; one STATE token exists; and all SHARE anywhere is the economic supply.
   */
  ghost predicate Inv(w: World, context: Context) {
    && Nonnegative(w.utxos)
    && w.stateRef in w.utxos
    && w.utxos[w.stateRef].datum == Some(StateDatum(w.state))
    && w.utxos[w.stateRef].address == Enterprise(Script, context.deployment.policy)
    && Lower(w.state.vaultPolicy) == Lower(context.deployment.policy)
    && ValidEconomics(w.state, context.terms)
    && (forall a :: Qty(w.utxos[w.stateRef].value, a) == EntrySum(StateEntries(w.state, context.terms), a))
    && Total(w.utxos, Token(context, StateToken)) == 1
    && Total(w.utxos, Token(context, ShareToken)) == w.state.economicSupply
    && w.state.economicSupply <= context.terms.virtualShares * w.state.backingAssets
  }

  /** What a State plan does: its effect on custody, mint and price, whatever the operation. */
  predicate SoundStatePlan(before: State, plan: StatePlan, context: Context) {
    && plan.successor.vaultPolicy == before.vaultPolicy
    && ValidEconomics(before, context.terms)
    && ValidEconomics(plan.successor, context.terms)
    && PriceNotBelow(before, plan.successor, context.terms)
    && StateUpdate(context, plan.successor).Ok?
    && 0 < |plan.plan.outputs| && plan.plan.outputs[0] == StateUpdate(context, plan.successor).value
    && MintOf(plan.plan.mint, Token(context, StateToken)) == 0
    && MintOf(plan.plan.mint, Token(context, ShareToken)) == plan.successor.economicSupply - before.economicSupply
  }

  lemma SupplyMintTokens(context: Context, shares: int, stateRef: OutRef)
    ensures
      var mint := [SupplyMint(context.deployment.policy, shares, stateRef)];
      && MintOf(mint, Token(context, ShareToken)) == shares
      && MintOf(mint, Token(context, StateToken)) == 0
  {
    hide MintOf, SupplyMint, OwnAsset, AssetId;
    SupplyMintMeans(context.deployment.policy, shares, stateRef, Token(context, ShareToken));
    SupplyMintMeans(context.deployment.policy, shares, stateRef, Token(context, StateToken));
    TokensDiffer(context);
  }

  lemma TokensDiffer(context: Context)
    ensures Token(context, StateToken) != Token(context, ShareToken)
  {
    OwnAssetId(context.deployment.policy, StateToken);
    OwnAssetId(context.deployment.policy, ShareToken);
    TokenNamesAreCanonical(StateToken, ShareToken);
  }

  lemma SamePriceAtSameFlows(before: State, after: State, terms: Terms)
    requires before.backingAssets == after.backingAssets && before.economicSupply == after.economicSupply
    ensures PriceNotBelow(before, after, terms)
  {
  }

  lemma DirectParts(
    context: Context, input: ProtectedInput, operation: Operation, amount: int, bound: int, receiver: Destination, topup: int)
    requires BuildDirectPlan(context, input, operation, amount, bound, receiver, topup).Ok?
    ensures
      var StatePlan(plan, successor) := BuildDirectPlan(context, input, operation, amount, bound, receiver, topup).value;
      var state := ResolveState(context, input, Ctvs1);
      && state.Ok?
      && var step := Transition(operation, amount, bound, state.value, context.terms, false);
      && step.Ok? && successor == step.value.successor
      && StateUpdate(context, successor).Ok?
      && |plan.outputs| == 2 && plan.outputs[0] == StateUpdate(context, successor).value
      && plan.mint == [SupplyMint(context.deployment.policy, step.value.shareMint, input.ref)]
  {
    hide ValidPlan, ResolveState, Transition, StateUpdate, SupplyMint, ValueOf, Output;
  }

  lemma DirectIsSound(
    context: Context, input: ProtectedInput, operation: Operation, amount: int, bound: int, receiver: Destination, topup: int)
    requires BuildDirectPlan(context, input, operation, amount, bound, receiver, topup).Ok?
    ensures input.datum.StateDatum?
    ensures SoundStatePlan(input.datum.state,
      BuildDirectPlan(context, input, operation, amount, bound, receiver, topup).value, context)
  {
    hide BuildDirectPlan, ResolveState, Transition, StateUpdate, MintOf, SupplyMint, ValidEconomics, PriceNotBelow, Token, Preview,
      StateValue, AssertSameValue;
    var plan := BuildDirectPlan(context, input, operation, amount, bound, receiver, topup).value;
    DirectParts(context, input, operation, amount, bound, receiver, topup);
    var state := ResolveState(context, input, Ctvs1).value;
    TransitionKeepsPrice(operation, amount, bound, state, context.terms, false);
    SupplyMintTokens(context, plan.successor.economicSupply - state.economicSupply, input.ref);
  }

  lemma StateChangeIsSound(
    context: Context, input: ProtectedInput, state: State, successor: State, operation: PlanOperation, action: StateRedeemer,
    extraOutputs: seq<PlannedOutput>, signers: seq<Hex>)
    requires ValidEconomics(state, context.terms) && successor.vaultPolicy == state.vaultPolicy
    requires successor.backingAssets == state.backingAssets && successor.economicSupply == state.economicSupply
    requires PlanStateChange(context, input, successor, operation, action, extraOutputs, signers).Ok?
    ensures SoundStatePlan(state, PlanStateChange(context, input, successor, operation, action, extraOutputs, signers).value, context)
  {
    hide ValidPlan, StateUpdate, ValidEconomics, PriceNotBelow, Token, MintOf;
    NothingMinted(Token(context, StateToken));
    NothingMinted(Token(context, ShareToken));
    SamePriceAtSameFlows(state, successor, context.terms);
  }

  lemma CollectFeesIsSound(family: Family, context: Context, input: ProtectedInput, topup: int)
    requires CreateCollectFeesPlan(family, context, input, topup).Ok?
    ensures input.datum.StateDatum?
    ensures SoundStatePlan(input.datum.state, CreateCollectFeesPlan(family, context, input, topup).value, context)
  {
    hide ResolveState, PlanStateChange, ValidEconomics, SoundStatePlan;
    var state := input.datum.state;
    var paid := ValueOf([(context.terms.underlying, state.accruedFees), (Ada, topup)]).value;
    var payout := Output(FeesOutput, context.terms.feeDestination, paid, None).value;
    StateChangeIsSound(context, input, state, state.(sequence := state.sequence + 1, accruedFees := 0), CollectFeesOperation,
      CollectFees(0, 1), [payout], []);
  }

  lemma TopUpIsSound(family: Family, context: Context, input: ProtectedInput, additional: int)
    requires CreateTopUpPlan(family, context, input, additional).Ok?
    ensures input.datum.StateDatum?
    ensures SoundStatePlan(input.datum.state, CreateTopUpPlan(family, context, input, additional).value, context)
  {
    hide ResolveState, PlanStateChange, ValidEconomics, SoundStatePlan;
    var state := input.datum.state;
    StateChangeIsSound(context, input, state,
      state.(sequence := state.sequence + 1, storageLovelace := state.storageLovelace + additional), TopUpOperation,
      TopUpReserve(additional, 0), [], []);
  }

  lemma SetPauseIsSound(family: Family, context: Context, input: ProtectedInput, flags: int)
    requires CreateSetPausePlan(family, context, input, flags).Ok?
    ensures input.datum.StateDatum?
    ensures SoundStatePlan(input.datum.state, CreateSetPausePlan(family, context, input, flags).value, context)
  {
    hide ResolveState, PlanStateChange, ValidEconomics, SoundStatePlan;
    var state := input.datum.state;
    StateChangeIsSound(context, input, state, state.(sequence := state.sequence + 1, pauseFlags := flags), SetPauseOperation,
      SetPause(flags, 0), [], [context.terms.pauseKey.value]);
  }

  lemma BatchIsSound(options: BatchOptions, requests: seq<BatchRequest>)
    requires BuildBatch(options, requests).Ok?
    ensures options.stateInput.datum.StateDatum?
    ensures
      var batch := BuildBatch(options, requests).value;
      SoundStatePlan(options.stateInput.datum.state, StatePlan(batch.plan, batch.successor), options.context)
  {
    hide BuildBatch, AssembleBatch, Settlements, SettleRequest, SettlementQuote, BatchOutputs, MintOf, SupplyMint, OwnAsset,
      AssetId, SortedReferences, ValidEconomics, PriceNotBelow, TotalsOf, ResolveState, StateUpdate, Token;
    var batch := BuildBatch(options, requests).value;
    var state, sorted := BatchParts(options, requests);
    BatchRequestsAreSettled(options, state, sorted, batch.settled);
    AssembledParts(options, state, batch.settled);
    BatchKeepsPrice(batch.settled, state, options.context.terms);
    BatchStateOutput(options, batch.successor, batch.settled, batch.totals.reward);
    SupplyMintTokens(options.context, batch.totals.issued - batch.totals.burned, options.stateInput.ref);
    NothingMinted(Token(options.context, StateToken));
    NothingMinted(Token(options.context, ShareToken));
  }

  lemma BatchStateOutput(options: BatchOptions, successor: State, settled: seq<SettledRequest>, reward: int)
    requires options.context.deployment.claimScript.Some?
    requires BatchOutputs(options, successor, settled, reward).Ok?
    ensures StateUpdate(options.context, successor).Ok?
    ensures BatchOutputs(options, successor, settled, reward).value[0] == StateUpdate(options.context, successor).value
  {
    hide ClaimOutputs, ValueOf;
  }

  lemma StateStepIsSound(w: World, context: Context, step: Step)
    requires w.stateRef in w.utxos && StatePlanOf(w, context, step).Ok?
    ensures SoundStatePlan(w.state, StatePlanOf(w, context, step).value, context)
  {
    hide SoundStatePlan, BuildBatch, BuildDirectPlan, CreateCollectFeesPlan, CreateTopUpPlan, CreateSetPausePlan;
    var input, family := StateEvidence(w), context.deployment.family;
    match step
    case DirectStep(operation, amount, bound, receiver, topup) =>
      DirectIsSound(context, input, operation, amount, bound, receiver, topup);
    case BatchStep(rewardKey, validity, rewardTopup, requests) =>
      BatchIsSound(BatchOptions(context, input, rewardKey, validity, rewardTopup), requests);
    case CollectFeesStep(topup) => CollectFeesIsSound(family, context, input, topup);
    case TopUpStep(additional) => TopUpIsSound(family, context, input, additional);
    case SetPauseStep(flags) => SetPauseIsSound(family, context, input, flags);
  }

  /** Nonnegative outputs of a balanced transaction stay nonnegative. */
  lemma ApplyKeepsNonnegative(u: Utxos, tx: LedgerTx)
    requires Nonnegative(u) && Balanced(u, tx)
    ensures Nonnegative(Apply(u, tx))
  {
    var after := Apply(u, tx);
    forall ref <- after ensures NonnegativeValue(after[ref].value) {
      if ref in Created(tx) {
        assert after[ref] == tx.outputs[ref.index];
      }
    }
  }

  lemma CreatedOutput(u: Utxos, tx: LedgerTx, i: nat)
    requires i < |tx.outputs|
    ensures OutRef(tx.id, i) in Apply(u, tx) && Apply(u, tx)[OutRef(tx.id, i)] == tx.outputs[i]
  {
  }

  /** A State step moves the State output to the successor with exactly its custody. */
  lemma StateStepKeepsInv(w: World, context: Context, step: Step, tx: LedgerTx, w': World)
    requires Inv(w, context) && Next(w, context, step, tx, w') && ChangesState(step)
    ensures Inv(w', context)
    ensures PriceNotBelow(w.state, w'.state, context.terms)
  {
    hide StatePlanOf, ValidEconomics, PriceNotBelow, StateUpdate, StateEntries, Balanced, MintOf, Token, Nonnegative, Apply, Total,
      EntrySum;
    var plan := StatePlanOf(w, context, step).value;
    StateStepIsSound(w, context, step);
    ApplyKeepsNonnegative(w.utxos, tx);
    BalancedTotal(w.utxos, tx, Token(context, StateToken));
    BalancedTotal(w.utxos, tx, Token(context, ShareToken));
    TokensAreNotAda(context);
    PriceBoundsSupply(w.state, plan.successor, context.terms);
    StateOutputIsExact(w, context, tx, plan, w');
  }

  lemma TokensAreNotAda(context: Context)
    ensures Token(context, StateToken) != Ada && Token(context, ShareToken) != Ada
  {
  }

  lemma StateOutputIsExact(w: World, context: Context, tx: LedgerTx, plan: StatePlan, w': World)
    requires SoundStatePlan(w.state, plan, context) && Realizes(w.utxos, tx, plan.plan)
    requires w'.utxos == Apply(w.utxos, tx) && w'.stateRef == OutRef(tx.id, 0) && w'.state == plan.successor
    ensures w'.stateRef in w'.utxos
    ensures w'.utxos[w'.stateRef].datum == Some(StateDatum(w'.state))
    ensures w'.utxos[w'.stateRef].address == Enterprise(Script, context.deployment.policy)
    ensures forall a :: Qty(w'.utxos[w'.stateRef].value, a) == EntrySum(StateEntries(w'.state, context.terms), a)
  {
    hide ValidEconomics, PriceNotBelow, StateEntries, MintOf, ValueOf, Apply;
    CreatedOutput(w.utxos, tx, 0);
    forall a ensures Qty(w'.utxos[w'.stateRef].value, a) == EntrySum(StateEntries(w'.state, context.terms), a) {
      StateUpdateHolds(context, plan.successor, a);
    }
  }

  /** A side plan spends no State output and mints nothing. */
  predicate SparesState(w: World, plan: Plan) {
    plan.mint == [] && forall i :: 0 <= i < |plan.inputs| ==> InputRefs(plan.inputs)[i] != w.stateRef
  }

  lemma SidePlanSparesState(w: World, context: Context, step: Step)
    requires Inv(w, context) && EvidenceAgrees(w, step) && SidePlanOf(context, step).Ok?
    ensures SparesState(w, SidePlanOf(context, step).value)
  {
    hide BuildRequestPlan, RefundPlan, BuildDeliverPlan, StateEntries, ValidEconomics, SparesState, Agrees, Nonnegative, Total,
      EntrySum, Token;
    match step
    case RequestStep(request) => EscrowSparesState(w, context, request);
    case RefundStep(source, mode, validity) => RefundSparesState(w, context, source, mode, validity);
    case DeliverStep(claims) => DeliverySparesState(w, context, claims);
  }

  lemma EscrowSparesState(w: World, context: Context, request: Request)
    requires BuildRequestPlan(context, request).Ok?
    ensures SparesState(w, BuildRequestPlan(context, request).value)
  {
    hide ValidPlan, AssertContext, RequestOf, SameHex, ValueOf, Output;
  }

  lemma RefundSparesState(w: World, context: Context, source: ProtectedInput, mode: RefundMode, validity: TimeBounds)
    requires RefundPlan(context.deployment, source, mode, validity).Ok? && Agrees(w.utxos, source)
    requires w.stateRef in w.utxos && w.utxos[w.stateRef].datum == Some(StateDatum(w.state))
    ensures SparesState(w, RefundPlan(context.deployment, source, mode, validity).value)
  {
    hide ValidPlan, RecoveryShape, AssertProtectedInput, SameHex, OwnAsset, AssetId, Output, RefId;
  }

  lemma DeliverySparesState(w: World, context: Context, claims: seq<ProtectedInput>)
    requires BuildDeliverPlan(context.deployment, claims).Ok?
    requires forall i :: 0 <= i < |claims| ==> Agrees(w.utxos, claims[i])
    requires w.stateRef in w.utxos && w.utxos[w.stateRef].datum == Some(StateDatum(w.state))
    ensures SparesState(w, BuildDeliverPlan(context.deployment, claims).value)
  {
    hide ValidPlan, DeliverOutput, RefId, SortItems, SortableReferences;
    var sorted := SortedReferences(claims, SourceRef).value;
    SortedReferencesIsCanonical(claims, claims, SourceRef);
    DeliveredAreClaims(sorted, context.deployment.claimScript.value);
    forall i | 0 <= i < |sorted| ensures RefId(sorted[i].ref) != w.stateRef {
      assert sorted[i] in multiset(claims);
      var k :| 0 <= k < |claims| && claims[k] == sorted[i];
      assert Agrees(w.utxos, claims[k]);
    }
  }

  /** Escrow, refunds, deliveries and wallet transactions leave the State output and both token totals alone. */
  lemma SideStepKeepsInv(w: World, context: Context, step: Step, tx: LedgerTx, w': World)
    requires Inv(w, context) && Next(w, context, step, tx, w') && !ChangesState(step)
    ensures Inv(w', context)
  {
    hide SidePlanOf, ValidEconomics, StateEntries, Balanced, Token, EvidenceAgrees, Apply, Nonnegative;
    if step.WalletStep? {
      ForeignMint(tx.mint, context, StateToken);
      ForeignMint(tx.mint, context, ShareToken);
    } else {
      SidePlanSparesState(w, context, step);
      NothingMinted(Token(context, StateToken));
      NothingMinted(Token(context, ShareToken));
    }
    ApplyKeepsNonnegative(w.utxos, tx);
    TokensAreNotAda(context);
    BalancedTotal(w.utxos, tx, Token(context, StateToken));
    BalancedTotal(w.utxos, tx, Token(context, ShareToken));
    NewReferences(w.utxos, tx, w.stateRef);
  }

  lemma NewReferences(u: Utxos, tx: LedgerTx, ref: OutRef)
    requires Balanced(u, tx) && ref in u && ref !in tx.inputs
    ensures ref in Apply(u, tx) && Apply(u, tx)[ref] == u[ref]
  {
  }

  lemma {:induction false} ForeignMint(mints: seq<PlannedMint>, context: Context, token: TokenName)
    requires forall i :: 0 <= i < |mints| ==> Lower(mints[i].policy) != Lower(context.deployment.policy)
    ensures MintOf(mints, Token(context, token)) == 0
  {
    OwnAssetId(context.deployment.policy, token);
    if mints != [] {
      ForeignMint(mints[1..], context, token);
    }
  }

  datatype Event = Event(step: Step, tx: LedgerTx)

  /** A run is a sequence of worlds joined by steps. */
  ghost predicate Run(worlds: seq<World>, events: seq<Event>, context: Context) {
    && |worlds| == |events| + 1
    && forall i :: 0 <= i < |events| ==> Next(worlds[i], context, events[i].step, events[i].tx, worlds[i + 1])
  }

  /** The ledger right after a realized genesis plan on outputs that hold no token of the policy. */
  ghost predicate AfterGenesis(w: World, context: Context, before: Utxos, tx: LedgerTx, seed: OutRef, configReserve: int, stateReserve: int) {
    var genesis := CreateGenesisPlan(context.deployment.family, context, seed, configReserve, stateReserve);
    && Nonnegative(before) && Balanced(before, tx)
    && Total(before, Token(context, StateToken)) == 0 && Total(before, Token(context, ShareToken)) == 0
    && genesis.Ok? && Realizes(before, tx, genesis.value.plan)
    && w == World(Apply(before, tx), OutRef(tx.id, 1), genesis.value.successor)
  }

  lemma GenesisParts(context: Context, seed: OutRef, configReserve: int, stateReserve: int)
    requires CreateGenesisPlan(context.deployment.family, context, seed, configReserve, stateReserve).Ok?
    ensures
      var StatePlan(plan, state) := CreateGenesisPlan(context.deployment.family, context, seed, configReserve, stateReserve).value;
      && state.vaultPolicy == context.deployment.policy && state.backingAssets == 0 && state.economicSupply == 0
      && ValidEconomics(state, context.terms)
      && StateUpdate(context, state).Ok?
      && |plan.outputs| == 2 && plan.outputs[1] == StateUpdate(context, state).value
      && plan.mint == [PlannedMint(context.deployment.policy, map[TokenHex(IdToken) := 1, TokenHex(StateToken) := 1], Initialize(0, 1))]
  {
    hide ValidPlan, ConsistentContext, StateUpdate, ValueOf, Output, TokenHex;
  }

  lemma GenesisMint(context: Context)
    ensures
      var mint := [PlannedMint(context.deployment.policy, map[TokenHex(IdToken) := 1, TokenHex(StateToken) := 1], Initialize(0, 1))];
      && MintOf(mint, Token(context, StateToken)) == 1
      && MintOf(mint, Token(context, ShareToken)) == 0
  {
    hide TokenHex, OwnAsset, AssetId;
    OwnAssetId(context.deployment.policy, StateToken);
    OwnAssetId(context.deployment.policy, ShareToken);
    TokenNamesAreCanonical(StateToken, ShareToken);
    TokenNamesAreCanonical(IdToken, ShareToken);
    TwoNameMint(context.deployment.policy, TokenHex(IdToken), TokenHex(StateToken), TokenHex(ShareToken));
  }

  lemma TwoNameMint(policy: Hex, first: Hex, second: Hex, other: Hex)
    requires other != first && other != second
    ensures
      var mint := [PlannedMint(policy, map[first := 1, second := 1], Initialize(0, 1))];
      && MintOf(mint, Native(Lower(policy), second)) == 1
      && MintOf(mint, Native(Lower(policy), other)) == 0
  {
    var mint := [PlannedMint(policy, map[first := 1, second := 1], Initialize(0, 1))];
    assert mint[1..] == [];
  }

  /** Genesis establishes the invariant: empty accounting, no shares, and the one STATE token. */
  lemma GenesisEstablishesInv(
    w: World, context: Context, before: Utxos, tx: LedgerTx, seed: OutRef, configReserve: int, stateReserve: int)
    requires AfterGenesis(w, context, before, tx, seed, configReserve, stateReserve)
    ensures Inv(w, context)
  {
    hide CreateGenesisPlan, ValidEconomics, Balanced, MintOf, Token, StateEntries, StateUpdate, TokenHex, Nonnegative, Apply, Total;
    GenesisParts(context, seed, configReserve, stateReserve);
    GenesisMint(context);
    ApplyKeepsNonnegative(before, tx);
    TokensAreNotAda(context);
    BalancedTotal(before, tx, Token(context, StateToken));
    BalancedTotal(before, tx, Token(context, ShareToken));
    CreatedOutput(before, tx, 1);
    UpdateIsExact(context, w.state);
  }

  lemma UpdateIsExact(context: Context, state: State)
    requires StateUpdate(context, state).Ok?
    ensures
      var output := StateUpdate(context, state).value;
      && output.datum == Some(StateDatum(state)) && output.address == Enterprise(Script, context.deployment.policy)
      && forall a :: Qty(output.value, a) == EntrySum(StateEntries(state, context.terms), a)
  {
    hide ValueOf, StateEntries;
    forall a ensures Qty(StateUpdate(context, state).value.value, a) == EntrySum(StateEntries(state, context.terms), a) {
      StateUpdateHolds(context, state, a);
    }
  }

  lemma StepKeepsInv(w: World, context: Context, step: Step, tx: LedgerTx, w': World)
    requires Inv(w, context) && Next(w, context, step, tx, w')
    ensures Inv(w', context) && PriceNotBelow(w.state, w'.state, context.terms)
  {
    hide Inv;
    if ChangesState(step) {
      StateStepKeepsInv(w, context, step, tx, w');
    } else {
      SideStepKeepsInv(w, context, step, tx, w');
    }
  }

  /** Over every run, the invariant holds of every ledger. */
  lemma {:induction false} RunsKeepInv(worlds: seq<World>, events: seq<Event>, context: Context, j: nat)
    requires Run(worlds, events, context) && Inv(worlds[0], context) && j <= |events|
    ensures Inv(worlds[j], context)
  {
    hide Next, Inv, PriceNotBelow;
    if j > 0 {
      RunsKeepInv(worlds, events, context, j - 1);
      StepKeepsInv(worlds[j - 1], context, events[j - 1].step, events[j - 1].tx, worlds[j]);
    }
  }

  /** Over every run, the virtual share price never falls between any two ledgers. */
  lemma {:induction false} RunsKeepPrice(worlds: seq<World>, events: seq<Event>, context: Context, i: nat, j: nat)
    requires Run(worlds, events, context) && Inv(worlds[0], context) && i <= j <= |events|
    ensures PriceNotBelow(worlds[i].state, worlds[j].state, context.terms)
    decreases j
  {
    hide Next, Inv, PriceNotBelow;
    if i == j {
      SamePriceAtSameFlows(worlds[i].state, worlds[j].state, context.terms);
    } else {
      RunsKeepInv(worlds, events, context, j - 1);
      RunsKeepPrice(worlds, events, context, i, j - 1);
      StepKeepsInv(worlds[j - 1], context, events[j - 1].step, events[j - 1].tx, worlds[j]);
      RunsKeepInv(worlds, events, context, i);
      PriceIsTransitive(worlds[i], worlds[j - 1], worlds[j], context);
    }
  }

  lemma PriceIsTransitive(a: World, b: World, c: World, context: Context)
    requires Inv(a, context) && Inv(b, context) && Inv(c, context)
    requires PriceNotBelow(a.state, b.state, context.terms) && PriceNotBelow(b.state, c.state, context.terms)
    ensures PriceNotBelow(a.state, c.state, context.terms)
  {
    hide StateEntries, Total, Nonnegative, Token, EntrySum;
    var terms := context.terms;
    RatioTransitive(PriceOf(a.state, terms).x, PriceOf(a.state, terms).y, PriceOf(b.state, terms).x, PriceOf(b.state, terms).y,
      PriceOf(c.state, terms).x, PriceOf(c.state, terms).y);
  }

  /**
   * The accounting theorem, from genesis on: in every reachable ledger all SHARE, free or escrowed or in Claims,
   * is the economic supply; the State output holds backing, fees, reserve and one STATE token; and the supply is
   * bounded by the backing. No part of a run that ends with at least the supply it began with extracts assets.
   */
  lemma VaultAccounting(
    worlds: seq<World>, events: seq<Event>, context: Context, before: Utxos, tx: LedgerTx, seed: OutRef,
    configReserve: int, stateReserve: int, i: nat, j: nat)
    requires Run(worlds, events, context) && i <= j <= |events|
    requires AfterGenesis(worlds[0], context, before, tx, seed, configReserve, stateReserve)
    ensures
      var state := worlds[j].state;
      && Total(worlds[j].utxos, Token(context, ShareToken)) == state.economicSupply
      && Total(worlds[j].utxos, Token(context, StateToken)) == 1
      && worlds[j].stateRef in worlds[j].utxos
      && (forall a :: Qty(worlds[j].utxos[worlds[j].stateRef].value, a)
            == When(a == Ada, state.storageLovelace)
             + When(a == AssetId(context.terms.underlying), state.backingAssets + state.accruedFees)
             + When(a == Token(context, StateToken), 1))
      && state.economicSupply <= context.terms.virtualShares * state.backingAssets
    ensures PriceNotBelow(worlds[i].state, worlds[j].state, context.terms)
    ensures worlds[i].state.economicSupply <= worlds[j].state.economicSupply ==>
      worlds[i].state.backingAssets <= worlds[j].state.backingAssets
  {
    hide Next, AfterGenesis, StateEntries, PriceNotBelow, ValidEconomics, Total, OwnAsset, AssetId, Nonnegative;
    GenesisEstablishesInv(worlds[0], context, before, tx, seed, configReserve, stateReserve);
    RunsKeepInv(worlds, events, context, i);
    RunsKeepInv(worlds, events, context, j);
    RunsKeepPrice(worlds, events, context, i, j);
    PriceBoundsSupply(worlds[i].state, worlds[j].state, context.terms);
    forall a { StateEntriesMean(worlds[j].state, context.terms, context.deployment.policy, a); }
  }
}
