/** Planner contexts and transaction intents: consistency of supplied evidence, protected outputs and signed mints. */
module Planning {
  import opened Results
  import opened PlutusData
  import opened Types
  import opened Arithmetic
  import opened HexStrings
  import opened References
  import opened Values
  import opened Quotes
  import opened Transitions

  datatype Family = Ctvs1 | Ctvs2

  datatype Deployment = Deployment(
    family: Family,
    network: string,
    networkDomain: Hex,
    policy: Hex,
    configLock: Hex,
    claimScript: Option<Hex>,
    termsHash: Hex,
    configRef: OutRef,
    buildId: string,
    chainPoint: ChainPoint)

  /** `commitment` is the hash of the Terms, computed outside this model. */
  datatype Context = Context(deployment: Deployment, terms: Terms, commitment: Hex)

  /** Supplied UTxO evidence with an inline datum and no reference script. */
  datatype ProtectedInput = ProtectedInput(ref: OutRef, address: Address, datum: Datum, value: Value)

  datatype TimeBounds = TimeBounds(lowerPosixMs: int, upperPosixMs: int)

  datatype InputRole = GenesisSeed | StateInput | RequestInput | ClaimInput

  datatype OutputRole =
    | ConfigOutput | StateOutput | ReceiverOutput | RequestOutput | ClaimOutput
    | RewardOutput | RefundOutput | DeliveryOutput | FeesOutput

  datatype PlanInput = PlanInput(ref: OutRef, role: InputRole, redeemer: Option<Redeemer>)

  datatype PlannedOutput = PlannedOutput(role: OutputRole, address: Address, datum: Option<Datum>, value: Value)

  datatype PlannedMint = PlannedMint(policy: Hex, assets: map<Hex, int>, redeemer: MintRedeemer)

  datatype PlanOperation =
    | Genesis | DirectOperation(operation: Operation) | CollectFeesOperation | TopUpOperation | SetPauseOperation
    | CreateRequest | BatchOperation | RefundOperation(mode: RefundMode) | DeliverOperation

  datatype Plan = Plan(
    operation: PlanOperation,
    deployment: Deployment,
    inputs: seq<PlanInput>,
    referenceInputs: seq<OutRef>,
    outputs: seq<PlannedOutput>,
    mint: seq<PlannedMint>,
    requiredSigners: seq<Hex>,
    validity: Option<TimeBounds>)

  predicate SameHex(a: Hex, b: Hex) {
    ParseHex(a).Ok? && ParseHex(b).Ok? && Lower(a) == Lower(b)
  }

  predicate IsCredential(c: Credential) {
    ParseHexOf(c.hash, 28).Ok?
  }

  predicate IsAddress(a: Address) {
    IsCredential(a.payment) && (a.stake.Some? ==> IsCredential(a.stake.value))
  }

  function CredentialId(c: Credential): Credential {
    Credential(c.kind, Lower(c.hash))
  }

  /** The identity of an address: its credentials with lower-case hashes. */
  function AddressId(a: Address): Address {
    Address(CredentialId(a.payment), if a.stake.None? then None else Some(CredentialId(a.stake.value)))
  }

  function Enterprise(kind: CredentialType, hash: Hex): Address {
    Address(Credential(kind, hash), None)
  }

  function ScriptDestination(hash: Hex): Destination {
    Destination(Enterprise(Script, hash), None)
  }

  /** Compiled families support their own immediate or request paths, not mixed-path vaults. */
  predicate FamilyModes(family: Family, modes: int) {
    match family
    case Ctvs1 => modes == 1 || modes == 2 || modes == 3
    case Ctvs2 => modes == 4 || modes == 8 || modes == 12
  }

  function AssertFamily(deployment: Deployment, family: Family): Outcome {
    Need(deployment.family == family && (family.Ctvs2? <==> deployment.claimScript.Some?), BindingMismatch)
  }

  predicate SortedKeys(keys: seq<Hex>) {
    forall i :: 0 < i < |keys| ==> TextLess(Lower(keys[i - 1]), Lower(keys[i]))
  }

  predicate IsKeySet(keys: seq<Hex>) {
    1 <= |keys| <= 16 && SortedKeys(keys) && forall i :: 0 <= i < |keys| ==> ParseHexOf(keys[i], 28).Ok?
  }

  predicate TermsShape(t: Terms) {
    && t.profile == 0 && ParseHexOf(t.networkDomain, 32).Ok? && IsAsset(t.underlying)
    && IsPositive(t.virtualShares) && (t.maxBacking.Some? ==> IsQuantity(t.maxBacking.value))
    && 0 <= t.entryBps <= 9999 && 0 <= t.exitBps <= 9999 && IsAddress(t.feeDestination.address)
    && (t.pauseKey.Some? ==> ParseHexOf(t.pauseKey.value, 28).Ok?)
    && (t.settlers.Some? ==> IsKeySet(t.settlers.value))
    && 1 <= t.executionModes <= 15 && 1 <= t.maxBatch <= 16
    && (t.descriptorHash.Some? ==> ParseHexOf(t.descriptorHash.value, 32).Ok?)
  }

  predicate StateShape(s: State) {
    && ParseHexOf(s.vaultPolicy, 28).Ok? && ParseHexOf(s.termsHash, 32).Ok? && IsQuantity(s.sequence)
    && IsQuantity(s.backingAssets) && IsQuantity(s.economicSupply) && IsQuantity(s.accruedFees)
    && IsPositive(s.storageLovelace) && 0 <= s.pauseFlags <= 3
  }

  predicate RecoveryShape(r: Recovery) {
    && ParseHexOf(r.vaultPolicy, 28).Ok? && ParseHexOf(r.controller, 28).Ok?
    && IsAddress(r.refund.address) && IsPositive(r.deadlinePosixMs)
  }

  predicate BodyShape(b: RequestBody) {
    && ParseHexOf(b.termsHash, 32).Ok? && IsPositive(b.offered) && IsPositive(b.minimumOutput)
    && IsAddress(b.receiver.address) && IsPositive(b.storageLovelace) && IsQuantity(b.executionBudget)
    && IsQuantity(b.settlerFee) && b.settlerFee <= b.executionBudget
    && IsQuantity(b.storageLovelace + b.executionBudget)
  }

  predicate ClaimShape(c: Claim) {
    && ParseHexOf(c.vaultPolicy, 28).Ok? && IsReference(c.requestRef) && IsReference(c.stateRef)
    && ParseHexOf(c.termsHash, 32).Ok? && IsAsset(c.asset) && IsPositive(c.economicQuantity)
    && IsAddress(c.receiver.address) && IsPositive(c.carriedLovelace)
    && (c.asset.Ada? ==> IsQuantity(c.economicQuantity + c.carriedLovelace))
  }

  /** Terms match their commitment, the family and the deployment's identities. */
  predicate ConsistentContext(context: Context, family: Family) {
    var Context(d, t, commitment) := context;
    && AssertFamily(d, family).Pass?
    && TermsShape(t)
    && FamilyModes(family, t.executionModes)
    && ParseHexOf(d.policy, 28).Ok? && ParseHexOf(d.configLock, 28).Ok?
    && (d.claimScript.Some? ==> ParseHexOf(d.claimScript.value, 28).Ok?)
    && d.network != "" && SameHex(d.networkDomain, t.networkDomain)
    && SameHex(d.termsHash, commitment)
    && (t.underlying.Native? ==> !SameHex(t.underlying.policy, d.policy))
    && d.buildId != ""
    && IsQuantity(d.chainPoint.slot) && ParseHexOf(d.chainPoint.blockHash, 32).Ok?
  }

  function AssertContext(context: Context, family: Family): Outcome {
    Need(ConsistentContext(context, family), BindingMismatch)
  }

  function AssertProtectedInput(input: ProtectedInput, script: Hex): Outcome {
    if !IsReference(input.ref) then Fail(InvalidBytes)
    else if AddressId(input.address) != AddressId(Enterprise(Script, script)) then Fail(BindingMismatch)
    else Need(IsActual(input.value), InvalidShape)
  }

  /** The State of a consistent context: bound to the deployment, in range, and backed by exact custody. */
  function ResolveState(context: Context, stateInput: ProtectedInput, family: Family): (r: Result<State>)
    ensures r.Ok? ==>
      && stateInput.datum == StateDatum(r.value)
      && ValidEconomics(r.value, context.terms)
      && Lower(r.value.vaultPolicy) == Lower(context.deployment.policy)
      && StateValue(r.value, context.terms).Ok?
      && AssertSameValue(stateInput.value, StateValue(r.value, context.terms).value).Pass?
  {
    var Context(d, t, _) := context;
    :- AssertContext(context, family);
    :- AssertProtectedInput(stateInput, d.policy);
    :- Need(stateInput.datum.StateDatum? && StateShape(stateInput.datum.state), InvalidShape);
    var state := stateInput.datum.state;
    :- Need(SameHex(state.vaultPolicy, d.policy) && SameHex(state.termsHash, d.termsHash), BindingMismatch);
    var _ :- ValidateEconomics(state, t);
    var custody :- StateValue(state, t);
    :- AssertSameValue(stateInput.value, custody);
    :- Need(IsReference(d.configRef), InvalidBytes);
    Ok(state)
  }

  /** What a resolved State input holds of each asset. */
  lemma ResolvedStateHolds(context: Context, stateInput: ProtectedInput, family: Family)
    requires ResolveState(context, stateInput, family).Ok?
    ensures forall a ::
      Qty(stateInput.value, a) == EntrySum(StateEntries(ResolveState(context, stateInput, family).value, context.terms), a)
  {
    var entries := StateEntries(ResolveState(context, stateInput, family).value, context.terms);
    ValueOfMeans(entries);
    SameValueIsExact(stateInput.value, ValueOf(entries).value);
  }

  function FiniteValidity(bounds: TimeBounds): Outcome {
    Need(IsQuantity(bounds.lowerPosixMs) && IsQuantity(bounds.upperPosixMs) && bounds.lowerPosixMs < bounds.upperPosixMs,
         OutOfRange)
  }

  /** A protected output: an explicit datum replaces the destination's own, which is carried uninterpreted. */
  function Output(role: OutputRole, destination: Destination, amount: Value, datum: Option<Datum>): (r: Result<PlannedOutput>)
    ensures r.Ok? ==> forall a :: Qty(r.value.value, a) == Qty(amount, a)
    ensures r.Ok? ==> r.value.address == destination.address && (datum.Some? ==> r.value.datum == datum)
  {
    var value :- ActualValue(amount);
    :- Need(IsAddress(destination.address), InvalidBytes);
    var own := if destination.datum.None? then None else Some(OpaqueDatum(destination.datum.value));
    Ok(PlannedOutput(role, destination.address, if datum.None? then own else datum, value))
  }

  /** Whatever the output planner makes is a valid planned output. */
  lemma OutputIsValid(role: OutputRole, destination: Destination, amount: Value, datum: Option<Datum>)
    requires Output(role, destination, amount, datum).Ok?
    ensures ValidOutput(Output(role, destination, amount, datum).value)
  {
    hide IsAsset, AssetId;
  }

  function SupplyMint(policy: Hex, shares: int, stateRef: OutRef): PlannedMint {
    PlannedMint(policy, map[TokenHex(ShareToken) := shares], SupplyUpdate(stateRef))
  }

  function EntryRequest(e: SettleEntry): OutRef {
    e.requestRef
  }

  function EntryClaim(e: DeliverEntry): OutRef {
    e.claimRef
  }

  function MapSeq<T, U>(f: T -> U, s: seq<T>): (r: seq<U>)
    ensures |r| == |s| && forall i :: 0 <= i < |s| ==> r[i] == f(s[i])
  {
    seq(|s|, i requires 0 <= i < |s| => f(s[i]))
  }

  predicate IsSettleEntry(e: SettleEntry) {
    IsReference(e.requestRef) && IsOutputIndex(e.claimOutput) && IsQuantity(e.claimTopup)
  }

  predicate IsDeliverEntry(e: DeliverEntry) {
    IsReference(e.claimRef) && IsOutputIndex(e.receiverOutput)
  }

  function ClaimIndices(entries: seq<SettleEntry>): seq<int> {
    MapSeq((e: SettleEntry) => e.claimOutput, entries)
  }

  function ReceiverIndices(entries: seq<DeliverEntry>): seq<int> {
    MapSeq((e: DeliverEntry) => e.receiverOutput, entries)
  }

  /** The outputs that a batch allocates, entries in canonical order. */
  function BatchIndices(stateOutput: int, sorted: seq<SettleEntry>, rewardOutput: Option<int>): seq<int> {
    [stateOutput] + ClaimIndices(sorted) + if rewardOutput.None? then [] else [rewardOutput.value]
  }

  /** The shape that a decoded redeemer has: ranged fields, disjoint outputs, and entries in strict reference order. */
  predicate RedeemerShape(r: Redeemer) {
    match r
    case StateAction(Direct(_, receiver, amount, bound, stateOutput, receiverOutput)) =>
      && IsAddress(receiver.address) && IsPositive(amount) && IsPositive(bound)
      && IsOutputIndex(stateOutput) && IsOutputIndex(receiverOutput) && stateOutput != receiverOutput
    case StateAction(Batch(stateOutput, entries, rewardKey, rewardOutput)) =>
      && IsOutputIndex(stateOutput) && ParseHexOf(rewardKey, 28).Ok?
      && 1 <= |entries| <= 16 && Sorted(entries, EntryRequest)
      && (forall i :: 0 <= i < |entries| ==> IsSettleEntry(entries[i]))
      && (rewardOutput.Some? ==> IsOutputIndex(rewardOutput.value))
      && Distinct(BatchIndices(stateOutput, entries, rewardOutput))
    case StateAction(CollectFees(stateOutput, feeOutput)) =>
      IsOutputIndex(stateOutput) && IsOutputIndex(feeOutput) && stateOutput != feeOutput
    case StateAction(TopUpReserve(topUp, stateOutput)) => IsPositive(topUp) && IsOutputIndex(stateOutput)
    case StateAction(SetPause(flags, stateOutput)) => 0 <= flags <= 3 && IsOutputIndex(stateOutput)
    case RequestAction(Acknowledge(ref)) => IsReference(ref)
    case RequestAction(Refund(_, index)) => IsOutputIndex(index)
    case ClaimAction(Deliver(entries)) =>
      && 1 <= |entries| <= 16 && Sorted(entries, EntryClaim)
      && (forall i :: 0 <= i < |entries| ==> IsDeliverEntry(entries[i]))
      && Distinct(ReceiverIndices(entries))
    case MintAction(Initialize(configOutput, stateOutput)) =>
      IsOutputIndex(configOutput) && IsOutputIndex(stateOutput) && configOutput != stateOutput
    case MintAction(SupplyUpdate(ref)) => IsReference(ref)
  }

  predicate ValidMint(mint: PlannedMint, deployment: Deployment) {
    && SameHex(mint.policy, deployment.policy) && RedeemerShape(MintAction(mint.redeemer))
    && forall name <- mint.assets ::
         IsAsset(Native(mint.policy, name)) && -Q_MAX <= mint.assets[name] <= Q_MAX && mint.assets[name] != 0
  }

  function InputRefs(inputs: seq<PlanInput>): (refs: seq<OutRef>)
    ensures |refs| == |inputs|
    ensures forall i :: 0 <= i < |inputs| ==> refs[i] == RefId(inputs[i].ref)
  {
    seq(|inputs|, i requires 0 <= i < |inputs| => RefId(inputs[i].ref))
  }

  /** The genesis seed carries no redeemer, and a script input one that decodes for its role. */
  predicate RoleMatches(input: PlanInput) {
    match input.role
    case GenesisSeed => input.redeemer.None?
    case StateInput => input.redeemer.Some? && input.redeemer.value.StateAction? && RedeemerShape(input.redeemer.value)
    case RequestInput => input.redeemer.Some? && input.redeemer.value.RequestAction? && RedeemerShape(input.redeemer.value)
    case ClaimInput => input.redeemer.Some? && input.redeemer.value.ClaimAction? && RedeemerShape(input.redeemer.value)
  }

  /** Canonical custody at a well-formed address; the datum mode follows the datum, and there is no reference script. */
  predicate ValidOutput(output: PlannedOutput) {
    IsActual(output.value) && IsAddress(output.address)
  }

  /** Well-formed signer keys, none repeated in any spelling. */
  predicate ValidSigners(keys: seq<Hex>) {
    && (forall i :: 0 <= i < |keys| ==> ParseHexOf(keys[i], 28).Ok?)
    && forall i, j :: 0 <= i < j < |keys| ==> Lower(keys[i]) != Lower(keys[j])
  }

  /**
   * Unique consumed references with the redeemer of their role, disjoint unique read-only references, well-formed
   * outputs and mints, and unique signers.
   */
  predicate ValidPlan(plan: Plan) {
    && Distinct(InputRefs(plan.inputs))
    && (forall i :: 0 <= i < |plan.inputs| ==> IsReference(plan.inputs[i].ref) && RoleMatches(plan.inputs[i]))
    && Distinct(Ids(plan.referenceInputs, (r: OutRef) => r))
    && (forall i :: 0 <= i < |plan.referenceInputs| ==>
          IsReference(plan.referenceInputs[i]) && RefId(plan.referenceInputs[i]) !in InputRefs(plan.inputs))
    && |plan.outputs| <= 65_536 && (forall i :: 0 <= i < |plan.outputs| ==> ValidOutput(plan.outputs[i]))
    && (forall i :: 0 <= i < |plan.mint| ==> ValidMint(plan.mint[i], plan.deployment))
    && ValidSigners(plan.requiredSigners)
    && (plan.validity.Some? ==> FiniteValidity(plan.validity.value).Pass?)
  }

  function CreatePlan(plan: Plan): (r: Result<Plan>)
    ensures r.Ok? ==> r.value == plan && ValidPlan(plan)
  {
    if ValidPlan(plan) then Ok(plan) else Err(InvalidShape)
  }

  /** What a plan mints of one asset. */
  function MintOf(mints: seq<PlannedMint>, a: Asset): int {
    if mints == [] then 0
    else
      (if a.Native? && a.policy == Lower(mints[0].policy) && a.name in mints[0].assets then mints[0].assets[a.name] else 0)
      + MintOf(mints[1..], a)
  }

  /** What planned outputs hold of one asset in all. */
  function OutputSum(outputs: seq<PlannedOutput>, a: Asset): int {
    if outputs == [] then 0 else Qty(outputs[0].value, a) + OutputSum(outputs[1..], a)
  }

  lemma {:induction false} OutputSumAppend(left: seq<PlannedOutput>, right: seq<PlannedOutput>, a: Asset)
    ensures OutputSum(left + right, a) == OutputSum(left, a) + OutputSum(right, a)
  {
    if left == [] {
      assert left + right == right;
    } else {
      assert (left + right)[1..] == left[1..] + right;
      OutputSumAppend(left[1..], right, a);
    }
  }

  lemma OneMintMeans(policy: Hex, name: Hex, quantity: int, redeemer: MintRedeemer, a: Asset)
    ensures MintOf([PlannedMint(policy, map[name := quantity], redeemer)], a)
         == (if a == Native(Lower(policy), name) then quantity else 0)
  {
    var mints := [PlannedMint(policy, map[name := quantity], redeemer)];
    assert MintOf(mints[1..], a) == 0;
  }

  /** A supply mint moves SHARE alone, by the signed delta. */
  lemma SupplyMintMeans(policy: Hex, shares: int, stateRef: OutRef, a: Asset)
    ensures MintOf([SupplyMint(policy, shares, stateRef)], a)
         == (if a == AssetId(OwnAsset(policy, ShareToken)) then shares else 0)
  {
    OwnAssetId(policy, ShareToken);
    OneMintMeans(policy, TokenHex(ShareToken), shares, SupplyUpdate(stateRef), a);
  }
}
