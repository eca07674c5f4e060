/** Batch plans: snapshot settlement, gross gates, one net mint, and exact conservation of every asset. */
module Batches {
  import opened Results
  import opened Types
  import opened Arithmetic
  import opened HexStrings
  import opened References
  import opened Values
  import opened Quotes
  import opened Transitions
  import opened Planning
  import opened Settlement
  import opened Planners

  /** Everything a batch is built from but its requests. */
  datatype BatchOptions = BatchOptions(
    context: Context,
    stateInput: ProtectedInput,
    rewardKey: Hex,
    validity: TimeBounds,
    rewardTopup: int)

  datatype BatchPlan = BatchPlan(plan: Plan, pricingBasis: OutRef, successor: State, settled: seq<SettledRequest>, totals: Totals)

  function RequestRef(request: BatchRequest): OutRef {
    request.input.ref
  }

  /** Issued shares of the batch cannot fund its redemptions; then the aggregate successor must be valid. */
  function BatchSuccessor(state: State, terms: Terms, totals: Totals): (r: Result<State>)
    ensures r.Ok? ==> ValidEconomics(r.value, terms) && totals.burned <= state.economicSupply
  {
    var successor := state.(
      sequence := state.sequence + 1,
      backingAssets := state.backingAssets + totals.depositedNet - totals.redeemedGross,
      economicSupply := state.economicSupply + totals.issued - totals.burned,
      accruedFees := state.accruedFees + totals.fees);
    :- Need(totals.burned <= state.economicSupply, NotEligible);
    var _ :- ValidateEconomics(successor, terms);
    Ok(successor)
  }

  function ClaimOutputs(settled: seq<SettledRequest>, claimScript: Hex): (r: Result<seq<PlannedOutput>>)
    ensures r.Ok? ==> |r.value| == |settled|
  {
    if settled == [] then Ok([])
    else
      var earlier :- ClaimOutputs(settled[..|settled| - 1], claimScript);
      var claim := settled[|settled| - 1].claim;
      :- Need(ClaimShape(claim), OutOfRange);
      var value :- ClaimValue(claim);
      var output :- Output(ClaimOutput, ScriptDestination(claimScript), value, Some(ClaimDatum(claim)));
      Ok(earlier + [output])
  }

  function Entries(settled: seq<SettledRequest>): (entries: seq<SettleEntry>)
    ensures |entries| == |settled|
  {
    seq(|settled|, i requires 0 <= i < |settled| => SettleEntry(settled[i].source.ref, i + 1, settled[i].claimTopup))
  }

  /** State at index 0, one Claim per settlement, then a reward only when the batch has a settler fee. */
  function BatchOutputs(options: BatchOptions, successor: State, settled: seq<SettledRequest>, reward: int): (r: Result<seq<PlannedOutput>>)
    requires options.context.deployment.claimScript.Some?
    ensures r.Ok? ==> |r.value| == 1 + |settled| + (if reward > 0 then 1 else 0)
  {
    var deployment := options.context.deployment;
    var custody :- StateValue(successor, options.context.terms);
    var state :- Output(StateOutput, ScriptDestination(deployment.policy), custody, Some(StateDatum(successor)));
    var claims :- ClaimOutputs(settled, deployment.claimScript.value);
    :- Need(reward == 0 ==> options.rewardTopup == 0, NotEligible);
    if reward > 0 then
      var value :- ValueOf([(Ada, reward + options.rewardTopup)]);
      var payout :- Output(RewardOutput, Destination(Enterprise(Key, options.rewardKey), None), value, None);
      Ok([state] + claims + [payout])
    else Ok([state] + claims)
  }

  function RequestInputs(settled: seq<SettledRequest>, stateRef: OutRef): (inputs: seq<PlanInput>)
    ensures |inputs| == |settled|
    ensures forall i :: 0 <= i < |settled| ==>
      inputs[i] == PlanInput(settled[i].source.ref, RequestInput, Some(RequestAction(Acknowledge(stateRef))))
  {
    seq(|settled|, i requires 0 <= i < |settled| =>
      PlanInput(settled[i].source.ref, RequestInput, Some(RequestAction(Acknowledge(stateRef)))))
  }

  predicate AuthorizedSettler(terms: Terms, key: Hex) {
    terms.settlers.None? || exists i :: 0 <= i < |terms.settlers.value| && SameHex(terms.settlers.value[i], key)
  }

  function AssembleBatch(options: BatchOptions, state: State, settled: seq<SettledRequest>): Result<BatchPlan>
    requires options.context.deployment.claimScript.Some?
  {
    var Context(deployment, terms, _) := options.context;
    var stateRef := options.stateInput.ref;
    var totals := TotalsOf(settled);
    var successor :- BatchSuccessor(state, terms, totals);
    var outputs :- BatchOutputs(options, successor, settled, totals.reward);
    var rewardOutput := if totals.reward > 0 then Some(1 + |settled|) else None;
    var action := Batch(0, Entries(settled), options.rewardKey, rewardOutput);
    var shareDelta := totals.issued - totals.burned;
    var plan :- CreatePlan(Plan(
      BatchOperation,
      deployment,
      [PlanInput(stateRef, StateInput, Some(StateAction(action)))] + RequestInputs(settled, stateRef),
      [deployment.configRef],
      outputs,
      if shareDelta == 0 then [] else [SupplyMint(deployment.policy, shareDelta, stateRef)],
      [options.rewardKey],
      Some(options.validity)));
    Ok(BatchPlan(plan, stateRef, successor, settled, totals))
  }

  /** The resolved State of a batch whose interval, reward key and settler are acceptable. */
  function ResolveBatch(options: BatchOptions): (r: Result<State>)
    ensures r.Ok? ==> options.context.deployment.claimScript.Some?
    ensures r.Ok? ==> ResolveState(options.context, options.stateInput, Ctvs2) == r
  {
    var state :- ResolveState(options.context, options.stateInput, Ctvs2);
    :- FiniteValidity(options.validity);
    var _ :- Quantity(options.rewardTopup);
    :- Need(ParseHexOf(options.rewardKey, 28).Ok?, InvalidBytes);
    :- Need(AuthorizedSettler(options.context.terms, options.rewardKey), Unauthorized);
    Ok(state)
  }

  function SettleSorted(options: BatchOptions, state: State, sorted: seq<BatchRequest>): Result<BatchPlan>
    requires options.context.deployment.claimScript.Some?
  {
    var Context(deployment, terms, _) := options.context;
    :- Need(|sorted| <= terms.maxBatch, WrongCount);
    var settled :- Settlements(sorted, deployment, state, options.stateInput.ref, terms, options.validity.upperPosixMs);
    AssembleBatch(options, state, settled)
  }

  /** Settle 1..maxBatch unique Requests, each against the same input State. */
  function BuildBatch(options: BatchOptions, requests: seq<BatchRequest>): Result<BatchPlan> {
    var state :- ResolveBatch(options);
    var sorted :- SortedReferences(requests, RequestRef);
    SettleSorted(options, state, sorted)
  }

  /** One pass over the sorted requests, which mutates the totals as it settles. */
  method SettleAll(options: BatchOptions, state: State, sorted: seq<BatchRequest>) returns (r: Result<seq<SettledRequest>>)
    ensures r == Settlements(
      sorted, options.context.deployment, state, options.stateInput.ref, options.context.terms, options.validity.upperPosixMs)
  {
    hide SettleRequest;
    var Context(deployment, terms, _) := options.context;
    var stateRef, upper := options.stateInput.ref, options.validity.upperPosixMs;
    var totals := new BatchTotals();
    var settlements: seq<SettledRequest> := [];
    for i := 0 to |sorted|
      invariant Settlements(sorted[..i], deployment, state, stateRef, terms, upper) == Ok(settlements)
      invariant totals.Contents() == TotalsOf(settlements)
    {
      assert sorted[..i + 1][..i] == sorted[..i];
      var settlement := SettleRequest(sorted[i], deployment, state, stateRef, terms, upper);
      if settlement.Err? {
        SettlementsFailEarly(sorted, i + 1, deployment, state, stateRef, terms, upper);
        return Err(settlement.error);
      }
      assert (settlements + [settlement.value])[..|settlements|] == settlements;
      var inRange := totals.Accumulate(settlement.value);
      if !inRange {
        SettlementsFailEarly(sorted, i + 1, deployment, state, stateRef, terms, upper);
        return Err(OutOfRange);
      }
      settlements := settlements + [settlement.value];
    }
    assert sorted[..|sorted|] == sorted;
    return Ok(settlements);
  }

  /** The planner: resolve, sort, settle in one pass, and lay out the transaction. */
  method BuildBatchPlan(options: BatchOptions, requests: seq<BatchRequest>) returns (r: Result<BatchPlan>)
    ensures r.Ok? <==> BuildBatch(options, requests).Ok?
    ensures r.Ok? ==> r == BuildBatch(options, requests)
  {
    var state := ResolveBatch(options);
    if state.Err? {
      return Err(state.error);
    }
    var sorted := SortReferences(requests, RequestRef);
    if sorted.Err? {
      return Err(sorted.error);
    }
    if |sorted.value| > options.context.terms.maxBatch {
      return Err(WrongCount);
    }
    var settled := SettleAll(options, state.value, sorted.value);
    if settled.Err? {
      return Err(settled.error);
    }
    r := AssembleBatch(options, state.value, settled.value);
  }

  /** Aggregate flows stand on the vault's side of the one snapshot price, whatever the mix of requests. */
  lemma {:induction false} FlowsFavourVault(settled: seq<SettledRequest>, state: State, terms: Terms)
    requires forall s <- settled :: SettlementQuote(s.request.body, state, terms) == Ok(s.quote)
    ensures
      var t := TotalsOf(settled);
      var Price(x, y) := PriceOf(state, terms);
      && t.issued * x <= t.depositedNet * y
      && t.redeemedGross * y <= t.burned * x
      && 0 <= t.issued && 0 <= t.burned && 0 <= t.redeemedGross && 0 <= t.depositedNet
  {
    if settled != [] {
      var earlier, last := settled[..|settled| - 1], settled[|settled| - 1];
      FlowsFavourVault(earlier, state, terms);
      assert last in settled;
      QuoteFavoursVault(OperationOf(last.request.body.kind), last.request.body.offered, state, terms);
      var t, u := TotalsOf(earlier), TotalsOf(settled);
      var Price(x, y) := PriceOf(state, terms);
      if last.request.body.kind.DepositRequest? {
        Distribute(t.issued, last.quote.shares, x);
        Distribute(t.depositedNet, last.quote.netAssets, y);
      } else {
        Distribute(t.redeemedGross, last.quote.grossAssets, y);
        Distribute(t.burned, last.quote.shares, x);
      }
    }
  }

  /** Fees are exactly what separates gross from net flows. */
  lemma {:induction false} FeesSeparateFlows(settled: seq<SettledRequest>, state: State, terms: Terms)
    requires forall s <- settled :: SettlementQuote(s.request.body, state, terms) == Ok(s.quote)
    ensures
      var t := TotalsOf(settled);
      t.fees == (t.depositedGross - t.depositedNet) + (t.redeemedGross - t.redeemedNet)
  {
    if settled != [] {
      var last := settled[|settled| - 1];
      FeesSeparateFlows(settled[..|settled| - 1], state, terms);
      assert last in settled;
      QuoteFavoursVault(OperationOf(last.request.body.kind), last.request.body.offered, state, terms);
    }
  }

  lemma Distribute(a: int, b: int, k: int)
    ensures (a + b) * k == a * k + b * k
  {
  }

  /** Redemptions within the pre-existing supply are paid from the pre-existing backing, never from the batch's own deposits. */
  lemma RedemptionsAreSolvent(settled: seq<SettledRequest>, state: State, terms: Terms)
    requires ValidEconomics(state, terms)
    requires forall s <- settled :: SettlementQuote(s.request.body, state, terms) == Ok(s.quote)
    requires TotalsOf(settled).burned <= state.economicSupply
    ensures TotalsOf(settled).redeemedGross <= state.backingAssets
  {
    var t := TotalsOf(settled);
    var Price(x, y) := PriceOf(state, terms);
    FlowsFavourVault(settled, state, terms);
    MulMonotone(t.burned, state.economicSupply, x);
    if x <= t.redeemedGross {
      MulMonotone(x, t.redeemedGross, y);
      MulOrder(y, state.economicSupply, x);
      assert false;
    }
  }

  /** A batch leaves the virtual share price at least where it was. */
  lemma BatchKeepsPrice(settled: seq<SettledRequest>, state: State, terms: Terms)
    requires forall s <- settled :: SettlementQuote(s.request.body, state, terms) == Ok(s.quote)
    requires BatchSuccessor(state, terms, TotalsOf(settled)).Ok?
    ensures PriceNotBelow(state, BatchSuccessor(state, terms, TotalsOf(settled)).value, terms)
  {
    var t := TotalsOf(settled);
    var Price(x, y) := PriceOf(state, terms);
    FlowsFavourVault(settled, state, terms);
    var assets, shares := t.depositedNet - t.redeemedGross, t.issued - t.burned;
    assert shares * x <= assets * y by {
      Distribute(shares, t.burned, x);
      Distribute(assets, t.redeemedGross, y);
    }
    EntryKeepsRatio(x, y, assets, shares);
    assert PriceOf(BatchSuccessor(state, terms, t).value, terms) == Price(x + assets, y + shares);
  }

  /** A batch of one has exactly the effect of the asynchronous transition: same acceptance, same quote, same successor. */
  lemma SingletonBatchIsTransition(s: SettledRequest, state: State, terms: Terms)
    requires BodyShape(s.request.body)
    requires var quote := SettlementQuote(s.request.body, state, terms); quote.Ok? ==> s.quote == quote.value
    ensures
      var body := s.request.body;
      var step := Transition(OperationOf(body.kind), body.offered, body.minimumOutput, state, terms, true);
      var totals := TotalsOf([s]);
      && (step.Ok? <==>
            && SettlementQuote(body, state, terms).Ok? && TotalsInRange(totals)
            && BatchSuccessor(state, terms, totals).Ok?)
      && (step.Ok? ==>
            && step.value.quote == s.quote
            && step.value.successor == BatchSuccessor(state, terms, totals).value
            && step.value.shareMint == totals.issued - totals.burned)
  {
    hide IsAddress, ParseHexOf, RawQuote, QuoteInRange;
    assert [s][..0] == [];
    assert TotalsOf([s]) == Accumulated(EMPTY_TOTALS, s);
  }

  /** Acceptance and effect do not depend on the order in which requests were submitted. */
  lemma BatchIgnoresSubmissionOrder(options: BatchOptions, requests: seq<BatchRequest>, reordered: seq<BatchRequest>)
    requires multiset(reordered) == multiset(requests)
    ensures BuildBatch(options, requests).Ok? <==> BuildBatch(options, reordered).Ok?
    ensures BuildBatch(options, requests).Ok? ==> BuildBatch(options, reordered) == BuildBatch(options, requests)
  {
    SortedReferencesIsCanonical(requests, reordered, RequestRef);
  }

  /** What the spent Requests hold of one asset. */
  function SourceSum(settled: seq<SettledRequest>, a: Asset): int {
    if settled == [] then 0
    else SourceSum(settled[..|settled| - 1], a) + Qty(settled[|settled| - 1].source.value, a)
  }

  /** External lovelace brought for the Claims. */
  function TopupSum(settled: seq<SettledRequest>): int {
    if settled == [] then 0 else TopupSum(settled[..|settled| - 1]) + settled[|settled| - 1].claimTopup
  }

  /** Escrow plus top-up and mint leave as the Claim, the settler fee, and the vault's side of the quote. */
  predicate Conserves(s: SettledRequest, share: Asset, underlying: Asset, a: Asset) {
    var deposit := s.request.body.kind.DepositRequest?;
    ClaimValue(s.claim).Ok? ==>
      Qty(s.source.value, a) + When(a == Ada, s.claimTopup) + When(a == share, if deposit then s.quote.shares else -s.quote.shares)
        == Qty(ClaimValue(s.claim).value, a) + When(a == Ada, s.request.body.settlerFee)
           + When(a == underlying, if deposit then s.quote.grossAssets else -s.quote.netAssets)
  }

  /** What eligibility has checked of a Request's custody. */
  lemma EligibleParts(candidate: BatchRequest, deployment: Deployment, terms: Terms, upperPosixMs: int)
    requires EligibleRequest(candidate, deployment, terms, upperPosixMs).Ok?
    ensures
      var request := EligibleRequest(candidate, deployment, terms, upperPosixMs).value;
      && Lower(request.recovery.vaultPolicy) == Lower(deployment.policy)
      && RequestValue(request, terms).Ok?
      && AssertSameValue(candidate.input.value, RequestValue(request, terms).value).Pass?
  {
    hide AssertProtectedInput, RecoveryShape, BodyShape, RequestValue, AssertSameValue, ParseHex;
  }

  lemma EscrowHolds(candidate: BatchRequest, deployment: Deployment, terms: Terms, upperPosixMs: int, a: Asset)
    requires EligibleRequest(candidate, deployment, terms, upperPosixMs).Ok?
    ensures
      var request := EligibleRequest(candidate, deployment, terms, upperPosixMs).value;
      Qty(candidate.input.value, a)
        == When(a == Ada, request.body.storageLovelace + request.body.executionBudget)
         + When(a == AssetId(if request.body.kind.DepositRequest? then terms.underlying else OwnAsset(deployment.policy, ShareToken)),
                request.body.offered)
  {
    hide EligibleRequest, IsActual, IsCustody, OwnAsset;
    var request := EligibleRequest(candidate, deployment, terms, upperPosixMs).value;
    var escrow := RequestEntries(request, terms);
    EligibleParts(candidate, deployment, terms, upperPosixMs);
    ValueOfMeans(escrow);
    SameValueIsExact(candidate.input.value, ValueOf(escrow).value);
    SumOfTwo(escrow[0], escrow[1], a);
    SameIdOfPolicy(request.recovery.vaultPolicy, deployment.policy, ShareToken);
  }

  lemma ClaimHolds(claim: Claim, a: Asset)
    requires ClaimValue(claim).Ok?
    ensures Qty(ClaimValue(claim).value, a)
         == When(a == Ada, claim.carriedLovelace) + When(a == AssetId(claim.asset), claim.economicQuantity)
  {
    var owed := ClaimEntries(claim);
    ValueOfMeans(owed);
    SumOfTwo(owed[0], owed[1], a);
  }

  lemma SameIdOfPolicy(policy: Hex, other: Hex, token: TokenName)
    requires Lower(policy) == Lower(other)
    ensures AssetId(OwnAsset(policy, token)) == AssetId(OwnAsset(other, token))
  {
  }

  lemma SettlementConserves(
    candidate: BatchRequest, deployment: Deployment, state: State, stateRef: OutRef, terms: Terms, upperPosixMs: int, a: Asset)
    requires SettleRequest(candidate, deployment, state, stateRef, terms, upperPosixMs).Ok?
    ensures Conserves(SettleRequest(candidate, deployment, state, stateRef, terms, upperPosixMs).value,
      AssetId(OwnAsset(deployment.policy, ShareToken)), AssetId(terms.underlying), a)
  {
    hide EligibleRequest, ClaimValue;
    var s := SettleRequest(candidate, deployment, state, stateRef, terms, upperPosixMs).value;
    EscrowHolds(candidate, deployment, terms, upperPosixMs, a);
    if ClaimValue(s.claim).Ok? {
      ClaimHolds(s.claim, a);
    }
  }

  /** All settlements together, by asset: sources, mint and top-ups against Claims, settler fees and vault flows. */
  lemma {:induction false} ClaimsConserve(settled: seq<SettledRequest>, script: Hex, share: Asset, underlying: Asset, a: Asset)
    requires forall s <- settled :: Conserves(s, share, underlying, a)
    requires ClaimOutputs(settled, script).Ok?
    ensures
      var t := TotalsOf(settled);
      SourceSum(settled, a) + When(a == Ada, TopupSum(settled)) + When(a == share, t.issued - t.burned)
        == OutputSum(ClaimOutputs(settled, script).value, a)
           + When(a == Ada, t.reward) + When(a == underlying, t.depositedGross - t.redeemedNet)
  {
    hide ClaimShape, ScriptDestination, IsAddress;
    if settled != [] {
      var earlier, last := settled[..|settled| - 1], settled[|settled| - 1];
      assert last in settled;
      assert Conserves(last, share, underlying, a);
      ClaimsConserve(earlier, script, share, underlying, a);
      var outputs, previous := ClaimOutputs(settled, script).value, ClaimOutputs(earlier, script).value;
      var output := outputs[|previous|];
      assert outputs == previous + [output];
      OutputSumAppend(previous, [output], a);
      assert [output][1..] == [];
    }
  }

  /**
   * Every asset is conserved by every batch plan, also when ADA is the underlying and its partitions merge:
   * State and Requests, plus the planned mint and the external top-ups, are exactly the planned outputs.
   */
  lemma BatchConserves(options: BatchOptions, requests: seq<BatchRequest>, a: Asset)
    requires BuildBatch(options, requests).Ok?
    ensures
      var batch := BuildBatch(options, requests).value;
      Qty(options.stateInput.value, a) + SourceSum(batch.settled, a) + MintOf(batch.plan.mint, a)
        + When(a == Ada, TopupSum(batch.settled) + options.rewardTopup)
        == OutputSum(batch.plan.outputs, a)
  {
    hide BuildBatch, AssembleBatch, ResolveBatch, ResolveState, Settlements, SettleRequest, SettlementQuote, Conserves, TotalsOf,
      StateEntries, OwnAsset, AssetId, SortedReferences, ClaimOf, MintOf, OutputSum, SourceSum, TopupSum, AssertSameValue, StateValue;
    var Context(deployment, terms, _) := options.context;
    var batch := BuildBatch(options, requests).value;
    var state, sorted := BatchParts(options, requests);
    BatchRequestsAreSettled(options, state, sorted, batch.settled);
    forall s <- batch.settled
      ensures Conserves(s, AssetId(OwnAsset(deployment.policy, ShareToken)), AssetId(terms.underlying), a)
    {
      SettlementConserves(BatchRequest(s.source, s.claimTopup), deployment, state, options.stateInput.ref, terms,
        options.validity.upperPosixMs, a);
    }
    SettlementsAreIndividual(sorted, deployment, state, options.stateInput.ref, terms, options.validity.upperPosixMs);
    ResolvedStateHolds(options.context, options.stateInput, Ctvs2);
    AssembledBatchConserves(options, state, batch.settled, a);
  }

  /** The intermediate results that a batch is assembled from. */
  lemma BatchParts(options: BatchOptions, requests: seq<BatchRequest>) returns (state: State, sorted: seq<BatchRequest>)
    requires BuildBatch(options, requests).Ok?
    ensures options.context.deployment.claimScript.Some?
    ensures ResolveBatch(options) == Ok(state)
    ensures ResolveState(options.context, options.stateInput, Ctvs2) == Ok(state)
    ensures Lower(state.vaultPolicy) == Lower(options.context.deployment.policy)
    ensures SortedReferences(requests, RequestRef) == Ok(sorted) && |sorted| <= options.context.terms.maxBatch
    ensures
      var batch := BuildBatch(options, requests).value;
      && Settlements(sorted, options.context.deployment, state, options.stateInput.ref, options.context.terms,
           options.validity.upperPosixMs) == Ok(batch.settled)
      && AssembleBatch(options, state, batch.settled) == Ok(batch)
  {
    hide ResolveState, Settlements, BatchSuccessor, BatchOutputs, ValidPlan;
    state := ResolveBatch(options).value;
    sorted := SortedReferences(requests, RequestRef).value;
  }

  lemma AssembledParts(options: BatchOptions, state: State, settled: seq<SettledRequest>)
    requires options.context.deployment.claimScript.Some? && AssembleBatch(options, state, settled).Ok?
    ensures
      var Context(deployment, terms, _) := options.context;
      var batch := AssembleBatch(options, state, settled).value;
      var t := TotalsOf(settled);
      && batch.settled == settled && batch.totals == t
      && BatchSuccessor(state, terms, t) == Ok(batch.successor)
      && BatchOutputs(options, batch.successor, settled, t.reward) == Ok(batch.plan.outputs)
      && batch.plan.mint == (if t.issued == t.burned then [] else [SupplyMint(deployment.policy, t.issued - t.burned, options.stateInput.ref)])
  {
    hide BatchSuccessor, BatchOutputs, ValidPlan, TotalsOf, Entries, RequestInputs;
  }

  lemma AssembledBatchConserves(options: BatchOptions, state: State, settled: seq<SettledRequest>, a: Asset)
    requires options.context.deployment.claimScript.Some? && AssembleBatch(options, state, settled).Ok?
    requires Lower(state.vaultPolicy) == Lower(options.context.deployment.policy)
    requires 0 <= TotalsOf(settled).reward
    requires forall s <- settled :: SettlementQuote(s.request.body, state, options.context.terms) == Ok(s.quote)
    requires forall s <- settled :: Conserves(s, AssetId(OwnAsset(options.context.deployment.policy, ShareToken)),
      AssetId(options.context.terms.underlying), a)
    ensures
      var plan := AssembleBatch(options, state, settled).value.plan;
      EntrySum(StateEntries(state, options.context.terms), a) + SourceSum(settled, a) + MintOf(plan.mint, a)
        + When(a == Ada, TopupSum(settled) + options.rewardTopup)
        == OutputSum(plan.outputs, a)
  {
    hide AssembleBatch, BatchOutputs, ClaimOutputs, Conserves, StateEntries, SettlementQuote, MintOf, SupplyMint, OwnAsset, AssetId, TotalsOf, ValidEconomics;
    var Context(deployment, terms, _) := options.context;
    var batch := AssembleBatch(options, state, settled).value;
    var t := TotalsOf(settled);
    AssembledParts(options, state, settled);
    FeesSeparateFlows(settled, state, terms);
    BatchOutputsMean(options, batch.successor, settled, t.reward, a);
    ClaimsConserve(settled, deployment.claimScript.value, AssetId(OwnAsset(deployment.policy, ShareToken)),
      AssetId(terms.underlying), a);
    StateEntriesMean(state, terms, deployment.policy, a);
    StateEntriesMean(batch.successor, terms, deployment.policy, a);
    SupplyMintMeans(deployment.policy, t.issued - t.burned, options.stateInput.ref, a);
    NothingMinted(a);
  }

  lemma NothingMinted(a: Asset)
    ensures MintOf([], a) == 0
  {
  }

  /** Each settlement of a batch is that of the request at its place. */
  lemma BatchRequestsAreSettled(options: BatchOptions, state: State, sorted: seq<BatchRequest>, settled: seq<SettledRequest>)
    requires Settlements(sorted, options.context.deployment, state, options.stateInput.ref, options.context.terms,
      options.validity.upperPosixMs) == Ok(settled)
    ensures forall s <- settled ::
      && SettleRequest(BatchRequest(s.source, s.claimTopup), options.context.deployment, state, options.stateInput.ref,
           options.context.terms, options.validity.upperPosixMs) == Ok(s)
      && SettlementQuote(s.request.body, state, options.context.terms) == Ok(s.quote)
  {
    hide EligibleRequest, SettlementQuote, Settlements, TotalsInRange, TotalsOf, ClaimOf;
    var Context(deployment, terms, _) := options.context;
    SettlementsAreIndividual(sorted, deployment, state, options.stateInput.ref, terms, options.validity.upperPosixMs);
    forall s <- settled
      ensures SettleRequest(BatchRequest(s.source, s.claimTopup), deployment, state, options.stateInput.ref, terms,
        options.validity.upperPosixMs) == Ok(s)
      ensures SettlementQuote(s.request.body, state, terms) == Ok(s.quote)
    {
      var i :| 0 <= i < |settled| && settled[i] == s;
      assert sorted[i] == BatchRequest(s.source, s.claimTopup);
    }
  }

  lemma AdaIsItself()
    ensures AssetId(Ada) == Ada
  {
  }

  lemma BatchOutputsMean(options: BatchOptions, successor: State, settled: seq<SettledRequest>, reward: int, a: Asset)
    requires options.context.deployment.claimScript.Some?
    requires BatchOutputs(options, successor, settled, reward).Ok?
    ensures ClaimOutputs(settled, options.context.deployment.claimScript.value).Ok?
    ensures OutputSum(BatchOutputs(options, successor, settled, reward).value, a)
      == EntrySum(StateEntries(successor, options.context.terms), a)
       + OutputSum(ClaimOutputs(settled, options.context.deployment.claimScript.value).value, a)
       + When(a == Ada && reward > 0, reward + options.rewardTopup)
    ensures reward == 0 ==> options.rewardTopup == 0
  {
    hide ClaimOutputs, IsAddress, StateEntries, ValueOf, Output, EntrySum, OutputSum, AssetId;
    var outputs := BatchOutputs(options, successor, settled, reward).value;
    var claims := ClaimOutputs(settled, options.context.deployment.claimScript.value).value;
    ValueOfMeans(StateEntries(successor, options.context.terms));
    var state := outputs[0];
    OutputSumOfOne(state, a);
    OutputSumAppend([state], claims, a);
    if reward > 0 {
      var entries := [(Ada, reward + options.rewardTopup)];
      ValueOfMeans(entries);
      SumOfOne(entries[0], a);
      var payout := outputs[|outputs| - 1];
      OutputSumAppend([state] + claims, [payout], a);
      assert outputs == [state] + claims + [payout];
      OutputSumOfOne(payout, a);
      AdaIsItself();
    } else {
      assert outputs == [state] + claims;
    }
  }
}
