/** What planned outputs hold: each custody output of a batch plan, at its script, exactly. */
module PlannedCustody {
  import opened Results
  import opened Types
  import opened HexStrings
  import opened Values
  import opened References
  import opened Planning
  import opened Settlement
  import opened Planners
  import opened Batches

  /** Custody at a canonical script: address, datum and exact value. */
  ghost predicate HoldsExactly(o: PlannedOutput, script: Hex, datum: Datum, custody: Value) {
    && o.address == Enterprise(Script, script) && o.datum == Some(datum) && AssertSameValue(o.value, custody).Pass?
  }

  lemma PlannedCustodyIsExact(role: OutputRole, script: Hex, custody: Value, datum: Datum)
    requires IsCustody(custody) && Output(role, ScriptDestination(script), custody, Some(datum)).Ok?
    ensures HoldsExactly(Output(role, ScriptDestination(script), custody, Some(datum)).value, script, datum, custody)
  {
    hide IsAsset, AssetId;
    SameValueIsExact(Output(role, ScriptDestination(script), custody, Some(datum)).value.value, custody);
  }

  lemma {:induction false} ClaimOutputsAreExact(settled: seq<SettledRequest>, script: Hex, i: nat)
    requires ClaimOutputs(settled, script).Ok? && i < |settled|
    ensures ClaimValue(settled[i].claim).Ok? && ClaimShape(settled[i].claim)
    ensures HoldsExactly(ClaimOutputs(settled, script).value[i], script, ClaimDatum(settled[i].claim), ClaimValue(settled[i].claim).value)
    decreases |settled|
  {
    hide Output, ClaimShape, HoldsExactly, AssertSameValue;
    var last := |settled| - 1;
    if i < last {
      ClaimOutputsAreExact(settled[..last], script, i);
    } else {
      var claim := settled[last].claim;
      ValueOfMeans(ClaimEntries(claim));
      PlannedCustodyIsExact(ClaimOutput, script, ClaimValue(claim).value, ClaimDatum(claim));
    }
  }

  /** What settling makes of a Claim's references. */
  predicate ClaimNames(s: SettledRequest, deployment: Deployment, stateRef: OutRef) {
    && s.claim.vaultPolicy == deployment.policy && s.claim.termsHash == deployment.termsHash
    && s.claim.requestRef == s.source.ref && s.claim.stateRef == stateRef
  }

  /** Every Claim output of a batch is planned in its place, and names its own request at the consumed State. */
  ghost predicate PlansClaims(settled: seq<SettledRequest>, outputs: seq<PlannedOutput>, deployment: Deployment, stateRef: OutRef) {
    && deployment.claimScript.Some? && |settled| < |outputs|
    && forall i :: 0 <= i < |settled| ==> ClaimNames(settled[i], deployment, stateRef) && PlansClaim(settled[i], outputs[i + 1], deployment)
  }

  /** A Claim output at the Claim script that holds exactly what its datum owes. */
  ghost predicate PlansClaim(s: SettledRequest, o: PlannedOutput, deployment: Deployment)
    requires deployment.claimScript.Some?
  {
    && ClaimValue(s.claim).Ok? && ClaimShape(s.claim)
    && HoldsExactly(o, deployment.claimScript.value, ClaimDatum(s.claim), ClaimValue(s.claim).value)
  }

  lemma SettledClaimNames(
    candidate: BatchRequest, deployment: Deployment, state: State, stateRef: OutRef, terms: Terms, upperPosixMs: int)
    requires SettleRequest(candidate, deployment, state, stateRef, terms, upperPosixMs).Ok?
    ensures ClaimNames(SettleRequest(candidate, deployment, state, stateRef, terms, upperPosixMs).value, deployment, stateRef)
  {
    hide EligibleRequest, SettlementQuote;
  }

  /** The layout puts exact State custody first and each Claim in the place its entry names. */
  lemma OutputsAreExact(options: BatchOptions, successor: State, settled: seq<SettledRequest>, reward: int)
    requires options.context.deployment.claimScript.Some? && BatchOutputs(options, successor, settled, reward).Ok?
    ensures StateValue(successor, options.context.terms).Ok?
    ensures
      var outputs := BatchOutputs(options, successor, settled, reward).value;
      && HoldsExactly(outputs[0], options.context.deployment.policy, StateDatum(successor), StateValue(successor, options.context.terms).value)
      && forall i :: 0 <= i < |settled| ==> PlansClaim(settled[i], outputs[i + 1], options.context.deployment)
  {
    hide Output, HoldsExactly, ClaimOutputs, StateEntries, ValueOf, ClaimShape;
    var deployment, outputs := options.context.deployment, BatchOutputs(options, successor, settled, reward).value;
    ValueOfMeans(StateEntries(successor, options.context.terms));
    PlannedCustodyIsExact(StateOutput, deployment.policy, StateValue(successor, options.context.terms).value, StateDatum(successor));
    forall i | 0 <= i < |settled| ensures PlansClaim(settled[i], outputs[i + 1], deployment) {
      ClaimOutputsAreExact(settled, deployment.claimScript.value, i);
      assert outputs[i + 1] == ClaimOutputs(settled, deployment.claimScript.value).value[i];
    }
  }

  /** A batch plan keeps exact State custody at the vault script and exact Claim custody for every settlement. */
  lemma BatchPlansExactly(options: BatchOptions, requests: seq<BatchRequest>)
    requires BuildBatch(options, requests).Ok?
    ensures options.context.deployment.claimScript.Some?
    ensures
      var batch := BuildBatch(options, requests).value;
      && PlansClaims(batch.settled, batch.plan.outputs, options.context.deployment, options.stateInput.ref)
      && StateValue(batch.successor, options.context.terms).Ok?
      && HoldsExactly(batch.plan.outputs[0], options.context.deployment.policy, StateDatum(batch.successor),
           StateValue(batch.successor, options.context.terms).value)
  {
    hide BuildBatch, AssembleBatch, Settlements, SettleRequest, ResolveBatch, ResolveState, SortedReferences, HoldsExactly, PlansClaim,
      ClaimNames, BatchOutputs, BatchSuccessor, TotalsOf, StateValue, SettlementQuote;
    var batch := BuildBatch(options, requests).value;
    var Context(deployment, terms, _) := options.context;
    var state, sorted := BatchParts(options, requests);
    AssembledParts(options, state, batch.settled);
    OutputsAreExact(options, batch.successor, batch.settled, batch.totals.reward);
    SettlementsAreIndividual(sorted, deployment, state, options.stateInput.ref, terms, options.validity.upperPosixMs);
    forall i | 0 <= i < |batch.settled| ensures ClaimNames(batch.settled[i], deployment, options.stateInput.ref) {
      SettledClaimNames(sorted[i], deployment, state, options.stateInput.ref, terms, options.validity.upperPosixMs);
    }
  }
}
