/** Wallet review of a candidate transaction against prior authorization and an optional plan. */
module Effects {
  import opened Results
  import opened Types
  import opened HexStrings
  import opened References
  import opened Values
  import opened Planning
  import opened AcceptedTransactions
  import opened EffectsLedger
  import opened EffectOutputs
  import opened EffectInputs
  import opened Witnesses
  import opened Sums

  datatype ObservedMint = ObservedMint(policy: Hex, assets: map<Hex, int>)

  /** `purposeFields`: any certificate, withdrawal, governance, donation, treasury or auxiliary field is present. */
  datatype CandidateBody = CandidateBody(
    inputs: seq<OutRef>,
    references: seq<OutRef>,
    collateral: seq<OutRef>,
    outputs: seq<WalletOutput>,
    mint: seq<ObservedMint>,
    fee: nat,
    requiredSigners: seq<Hex>,
    validityStart: Option<int>,
    ttl: Option<int>,
    networkId: Option<int>,
    collateralReturn: Option<WalletOutput>,
    totalCollateral: Option<int>,
    scriptDataHash: Option<Hex>,
    purposeFields: bool)

  datatype Candidate = Candidate(isValid: bool, body: CandidateBody, witnesses: WitnessSet)

  datatype SlotConfig = SlotConfig(zeroTime: int, zeroSlot: int, slotLength: int)

  datatype WalletAuthorization = WalletAuthorization(
    networkId: int,
    networkName: string,
    networkDomain: Hex,
    planInputs: seq<ResolvedInput>,
    allowedFunding: seq<ResolvedInput>,
    allowedCollateral: seq<ResolvedInput>,
    allowedReferences: seq<ResolvedInput>,
    change: ChangePolicy,
    maxNetworkFee: int,
    maxCollateralExposure: int,
    permitted: seq<WalletOutput>,
    additionalSigners: seq<Hex>,
    lowerSlot: Option<int>,
    upperSlot: Option<int>,
    slots: SlotConfig)

  datatype Approval = Approval(
    fee: int,
    exposure: int,
    fundingInputs: seq<OutRef>,
    collateralInputs: seq<OutRef>,
    requiredWitnesses: set<Hex>,
    roles: seq<ReviewRole>)

  function PlannedOutputs(plan: Option<Plan>): seq<PlannedOutput> {
    if plan.None? then [] else plan.value.outputs
  }

  function PlannedMints(plan: Option<Plan>): seq<PlannedMint> {
    if plan.None? then [] else plan.value.mint
  }

  predicate AuthorizationFits(plan: Option<Plan>, auth: WalletAuthorization) {
    && (plan.Some? ==> ValidPlan(plan.value))
    && (auth.networkId == 0 || auth.networkId == 1)
    && 0 <= auth.maxNetworkFee && 0 <= auth.maxCollateralExposure
    && IsPaymentAddress(auth.change.address, auth.networkId) && KeyOf(auth.change.address).Some?
    && (plan.Some? ==>
          && plan.value.deployment.network == auth.networkName
          && Lower(plan.value.deployment.networkDomain) == Lower(auth.networkDomain))
  }

  /** Body slots are exactly the authorized ones, and lie within the plan's bounds when it has any. */
  predicate ValidityFits(body: CandidateBody, plan: Option<Plan>, auth: WalletAuthorization) {
    var SlotConfig(zeroTime, zeroSlot, slotLength) := auth.slots;
    && (auth.lowerSlot.Some? ==> 0 <= auth.lowerSlot.value)
    && (auth.upperSlot.Some? ==> 0 <= auth.upperSlot.value)
    && (auth.lowerSlot.Some? && auth.upperSlot.Some? ==> auth.lowerSlot.value < auth.upperSlot.value)
    && body.validityStart == auth.lowerSlot && body.ttl == auth.upperSlot
    && (plan.Some? && plan.value.validity.Some? ==>
          && 0 < slotLength && 0 <= zeroSlot
          && auth.lowerSlot.Some? && auth.upperSlot.Some?
          && plan.value.validity.value.lowerPosixMs <= zeroTime + (auth.lowerSlot.value - zeroSlot) * slotLength
          && zeroTime + (auth.upperSlot.value - zeroSlot) * slotLength <= plan.value.validity.value.upperPosixMs)
  }

  function LowerAll(keys: seq<Hex>): set<Hex> {
    set i | 0 <= i < |keys| :: Lower(keys[i])
  }

  function ExpectedSigners(plan: Option<Plan>, auth: WalletAuthorization): set<Hex> {
    LowerAll((if plan.None? then [] else plan.value.requiredSigners) + auth.additionalSigners)
  }

  /** The body's signer field is exactly the union of the planned and the additional signers. */
  predicate SignersFit(body: CandidateBody, plan: Option<Plan>, auth: WalletAuthorization) {
    && Distinct(body.requiredSigners)
    && (forall key <- ExpectedSigners(plan, auth) :: ParseHexOf(key, 28).Ok?)
    && (set key | key in body.requiredSigners) == ExpectedSigners(plan, auth)
  }

  function MintOfPolicy(m: ObservedMint): Value {
    map name | name in m.assets :: Native(m.policy, name) := m.assets[name]
  }

  function MintedValue(mint: seq<ObservedMint>): Value {
    if mint == [] then map[] else MintedValue(mint[..|mint| - 1]) + MintOfPolicy(mint[|mint| - 1])
  }

  function MintPolicies(mint: seq<ObservedMint>): seq<Hex> {
    SortTexts(seq(|mint|, i requires 0 <= i < |mint| => mint[i].policy))
  }

  function SortTexts(texts: seq<Hex>): seq<Hex> {
    if texts == [] then [] else InsertText(texts[0], SortTexts(texts[1..]))
  }

  function InsertText(text: Hex, texts: seq<Hex>): seq<Hex> {
    if texts == [] || TextLess(text, texts[0]) then [text] + texts else [texts[0]] + InsertText(text, texts[1..])
  }

  /** The signed deltas of the mint field; an explicit zero is invalid. */
  predicate IsMintField(mint: seq<ObservedMint>) {
    && (forall i :: 0 <= i < |mint| ==> forall name <- mint[i].assets :: mint[i].assets[name] != 0)
    && CanonicalKeys(MintedValue(mint))
  }

  function MintAt(m: PlannedMint, a: Asset): Hex -> int {
    name => if name in m.assets then When(AssetId(Native(m.policy, name)) == a, m.assets[name]) else 0
  }

  /** What the planned mints add up to, with identities normalized. */
  ghost function PlannedMintOf(mints: seq<PlannedMint>, a: Asset): int {
    if mints == [] then 0
    else PlannedMintOf(mints[..|mints| - 1], a) + Sum(mints[|mints| - 1].assets.Keys, MintAt(mints[|mints| - 1], a))
  }

  predicate PlannedAssets(mints: seq<PlannedMint>) {
    forall i :: 0 <= i < |mints| ==> forall name <- mints[i].assets :: IsAsset(Native(mints[i].policy, name))
  }

  lemma SingleAmount(id: Asset, amount: int, a: Asset)
    requires IsAsset(id)
    ensures IsLedgerValue(map[id := amount]) && Amount(map[id := amount], a) == When(AssetId(id) == a, amount)
  {
  }

  /** Accumulate the planned mints, one asset at a time. */
  method ExpectedMint(mints: seq<PlannedMint>) returns (expected: Balance)
    requires PlannedAssets(mints)
    ensures fresh(expected) && CanonicalKeys(expected.amounts)
    ensures forall a :: Qty(expected.amounts, a) == PlannedMintOf(mints, a)
  {
    hide Amount, IsLedgerValue, IsAsset, AssetId, CanonicalKeys;
    expected := new Balance();
    assert CanonicalKeys(expected.amounts) by {
      EmptyIsCanonical();
    }
    for i := 0 to |mints|
      invariant fresh(expected) && CanonicalKeys(expected.amounts)
      invariant forall a :: Qty(expected.amounts, a) == PlannedMintOf(mints[..i], a)
    {
      var mint := mints[i];
      var rest := mint.assets.Keys;
      while rest != {}
        invariant rest <= mint.assets.Keys && CanonicalKeys(expected.amounts)
        invariant forall a ::
          Qty(expected.amounts, a) + Sum(rest, MintAt(mint, a))
            == PlannedMintOf(mints[..i], a) + Sum(mint.assets.Keys, MintAt(mint, a))
        decreases rest
      {
        var name :| name in rest;
        forall a ensures Amount(map[Native(mint.policy, name) := mint.assets[name]], a) == MintAt(mint, a)(name) {
          SingleAmount(Native(mint.policy, name), mint.assets[name], a);
        }
        SingleAmount(Native(mint.policy, name), mint.assets[name], Ada);
        var _ := expected.Add(map[Native(mint.policy, name) := mint.assets[name]], 1);
        forall a ensures Sum(rest, MintAt(mint, a)) == MintAt(mint, a)(name) + Sum(rest - {name}, MintAt(mint, a)) {
          SumRemove(rest, name, MintAt(mint, a));
        }
        rest := rest - {name};
      }
      assert mints[..i + 1][..i] == mints[..i];
    }
    assert mints[..|mints|] == mints;
  }

  ghost predicate MintFits(mint: seq<ObservedMint>, planned: seq<PlannedMint>) {
    IsMintField(mint) && forall a :: Amount(MintedValue(mint), a) == PlannedMintOf(planned, a)
  }

  method VerifyMint(mint: seq<ObservedMint>, planned: seq<PlannedMint>) returns (ok: bool)
    requires PlannedAssets(planned)
    ensures ok <==> MintFits(mint, planned)
  {
    hide Amount, CanonicalKeys, PlannedAssets, MintedValue, SameValue;
    if !IsMintField(mint) {
      return false;
    }
    var expected := ExpectedMint(planned);
    var actual := MintedValue(mint);
    CanonicalAmount(actual, Ada);
    CanonicalAmount(expected.amounts, Ada);
    forall a ensures Amount(expected.amounts, a) == PlannedMintOf(planned, a) {
      CanonicalAmount(expected.amounts, a);
    }
    SameValueMeans(actual, expected.amounts);
    var same := SameValue(actual, expected.amounts);
    return same.Ok? && same.value;
  }

  /** Nothing is created or lost: spent evidence and mint equal outputs and fee, asset by asset. */
  ghost predicate Conserves(spent: Asset -> int, mint: Value, outputs: seq<WalletOutput>, fee: int) {
    forall a :: spent(a) + Amount(mint, a) == AmountSum(outputs, a) + When(a == Ada, fee)
  }

  function FeeValue(fee: int): Value {
    map[Ada := fee]
  }

  lemma FeeAmount(fee: int, a: Asset)
    ensures IsLedgerValue(FeeValue(fee)) && Amount(FeeValue(fee), a) == When(a == Ada, fee)
  {
    SingleAmount(Ada, fee, a);
  }

  /** The balance over mint, outputs and fee, on top of the resolved spends. */
  method VerifyConservation(sum: Balance, ghost spent: Asset -> int, mint: Value, outputs: seq<WalletOutput>, fee: nat)
    returns (ok: bool)
    requires CanonicalKeys(sum.amounts) && forall a :: Qty(sum.amounts, a) == spent(a)
    requires IsLedgerValue(mint) && forall i :: 0 <= i < |outputs| ==> IsLedgerValue(outputs[i].value)
    modifies sum
    ensures ok <==> Conserves(spent, mint, outputs, fee)
  {
    hide Amount, IsLedgerValue, CanonicalKeys, FeeValue, AmountSum, SameValue;
    var _ := sum.Add(mint, 1);
    SumOfNothing();
    for i := 0 to |outputs|
      invariant CanonicalKeys(sum.amounts)
      invariant forall a :: Qty(sum.amounts, a) == spent(a) + Amount(mint, a) - AmountSum(outputs[..i], a)
    {
      var _ := sum.Add(outputs[i].value, -1);
      assert outputs[..i + 1] == outputs[..i] + [outputs[i]];
      forall a ensures Qty(sum.amounts, a) == spent(a) + Amount(mint, a) - AmountSum(outputs[..i + 1], a) {
        SumAppend(outputs[..i], outputs[i], a);
      }
    }
    assert outputs[..|outputs|] == outputs;
    FeeAmount(fee, Ada);
    var _ := sum.Add(FeeValue(fee), -1);
    forall a ensures Qty(sum.amounts, a) == spent(a) + Amount(mint, a) - AmountSum(outputs, a) - When(a == Ada, fee) {
      FeeAmount(fee, a);
    }
    ZeroBalance(sum.amounts);
    var same := SameValue(sum.amounts, map[]);
    return same.Ok? && same.value;
  }

  lemma SumOfNothing()
    ensures forall a :: AmountSum([], a) == 0
  {
  }

  lemma ZeroBalance(amounts: Value)
    requires CanonicalKeys(amounts)
    ensures SameValue(amounts, map[]) == Ok(true) <==> forall a :: Qty(amounts, a) == 0
    ensures SameValue(amounts, map[]).Ok?
  {
    hide Amount;
    SameValueMeans(amounts, map[]);
    forall a ensures Amount(amounts, a) == Qty(amounts, a) && Amount(map[], a) == 0 {
      CanonicalAmount(amounts, a);
      CanonicalAmount(map[], a);
    }
  }

  function ListsOf(auth: WalletAuthorization): Allowlists {
    Allowlists(
      EvidenceMap(auth.planInputs), EvidenceMap(auth.allowedFunding),
      EvidenceMap(auth.allowedCollateral), EvidenceMap(auth.allowedReferences))
  }

  predicate EvidenceFits(auth: WalletAuthorization) {
    && IsEvidenceList(auth.planInputs, auth.networkId, false)
    && IsEvidenceList(auth.allowedFunding, auth.networkId, true)
    && IsEvidenceList(auth.allowedCollateral, auth.networkId, true)
    && IsEvidenceList(auth.allowedReferences, auth.networkId, false)
  }

  method IndexAllowlists(auth: WalletAuthorization) returns (r: Result<Allowlists>)
    ensures r.Ok? <==> EvidenceFits(auth)
    ensures r.Ok? ==> r.value == ListsOf(auth)
  {
    hide IsEvidenceList;
    var sources := IndexEvidence(auth.planInputs, auth.networkId, false);
    var funding := IndexEvidence(auth.allowedFunding, auth.networkId, true);
    var collateral := IndexEvidence(auth.allowedCollateral, auth.networkId, true);
    var references := IndexEvidence(auth.allowedReferences, auth.networkId, false);
    if sources.Err? || funding.Err? || collateral.Err? || references.Err? {
      return Err(Unauthorized);
    }
    return Ok(Allowlists(sources.value, funding.value, collateral.value, references.value));
  }

  lemma EvidenceIsLedgerValued(auth: WalletAuthorization)
    requires EvidenceFits(auth)
    ensures forall id <- ListsOf(auth).Spendable() :: IsLedgerValue(ListsOf(auth).Spendable()[id].value)
    ensures forall id <- ListsOf(auth).collateral :: IsLedgerValue(ListsOf(auth).collateral[id].value)
  {
    hide IsLedgerValue, EvidenceMap, IsEvidenceList;
    ListIsLedgerValued(auth.planInputs, auth.networkId, false);
    ListIsLedgerValued(auth.allowedFunding, auth.networkId, true);
    ListIsLedgerValued(auth.allowedCollateral, auth.networkId, true);
  }

  lemma ListIsLedgerValued(values: seq<ResolvedInput>, networkId: int, keyOnly: bool)
    requires IsEvidenceList(values, networkId, keyOnly)
    ensures forall id <- EvidenceMap(values) :: IsLedgerValue(EvidenceMap(values)[id].value)
  {
    hide IsLedgerValue, EvidenceMap, RefId;
    EvidenceMapMeans(values);
  }

  /** The canonical references of a body whose input lists are well formed. */
  function ReadBodyRefs(body: CandidateBody): (r: Result<BodyRefs>)
    ensures r.Ok? ==> Distinct(r.value.inputs)
  {
    var inputs :- ReadRefs(body.inputs);
    var references :- ReadRefs(body.references);
    var collateral :- ReadRefs(body.collateral);
    Ok(BodyRefs(inputs, references, collateral))
  }

  predicate HeaderFits(tx: Candidate, plan: Option<Plan>, auth: WalletAuthorization) {
    && AuthorizationFits(plan, auth)
    && tx.isValid && !tx.body.purposeFields
    && (tx.body.networkId.Some? ==> tx.body.networkId.value == auth.networkId)
    && ValidityFits(tx.body, plan, auth)
    && tx.body.fee <= auth.maxNetworkFee
    && (tx.witnesses.redeemers != [] <==> tx.body.scriptDataHash.Some?)
  }

  function SpentOf(refs: BodyRefs, auth: WalletAuthorization): Asset -> int {
    a => RefsSum(refs.inputs, ListsOf(auth).Spendable(), a)
  }

  /** Everything that the wallet's policy demands of a candidate. */
  ghost predicate Acceptable(tx: Candidate, plan: Option<Plan>, auth: WalletAuthorization) {
    var body, lists, refs := tx.body, ListsOf(auth), ReadBodyRefs(tx.body);
    && HeaderFits(tx, plan, auth) && EvidenceFits(auth) && refs.Ok?
    && InputsAcceptable(refs.value, plan, lists)
    && CollateralEvidenceFits(refs.value.collateral, lists.collateral, ResolvedOf(refs.value.inputs, lists.Spendable()))
    && MintFits(body.mint, PlannedMints(plan))
    && SignersFit(body, plan, auth)
    && WitnessesFit(tx.witnesses, plan, refs.value.inputs, MintPolicies(body.mint),
         ResolvedOf(refs.value.inputs, lists.Spendable()), lists.references, refs.value.references)
    && OutputsAcceptable(body.outputs, PlannedOutputs(plan), auth.permitted, auth.change, auth.networkId)
    && Conserves(SpentOf(refs.value, auth), MintedValue(body.mint), body.outputs, body.fee)
    && CollateralAcceptable(refs.value.collateral, lists.collateral, body.collateralReturn, body.totalCollateral,
         auth.change, auth.maxCollateralExposure, auth.networkId)
  }

  /** What the wallet puts in and does not get back as change. */
  function Loss(tx: Candidate, auth: WalletAuthorization, approval: Approval, a: Asset): int
    requires |approval.roles| == |tx.body.outputs|
  {
    RefsSum(approval.fundingInputs, EvidenceMap(auth.allowedFunding), a)
    - AmountSum(Having(tx.body.outputs, approval.roles, ChangeRole), a)
  }

  /** What prior authorization lets the wallet lose, whatever the candidate contains, apart from its fee. */
  ghost function AuthorizedLoss(plan: Option<Plan>, auth: WalletAuthorization, a: Asset): int {
    AmountSum(auth.permitted, a) + AmountSum(Expected(PlannedOutputs(plan), auth.networkId), a)
    - EvidenceSum(auth.planInputs, a) - PlannedMintOf(PlannedMints(plan), a)
  }

  /** The keys that must sign: those of the key-held spends, of the collateral, and of the body's signer field. */
  function RequiredKeys(body: CandidateBody, refs: BodyRefs, auth: WalletAuthorization): set<Hex> {
    KeysOf(refs.inputs, ListsOf(auth).Spendable()) + KeysOf(refs.collateral, EvidenceMap(auth.allowedCollateral))
    + set key | key in body.requiredSigners
  }

  /** The POSIX time at which a slot starts. */
  function SlotTime(slots: SlotConfig, slot: int): int {
    slots.zeroTime + (slot - slots.zeroSlot) * slots.slotLength
  }

  /** The slots are the authorized ones, and every slot in which the candidate may be included is within the plan's bounds. */
  ghost predicate IntervalRespected(body: CandidateBody, plan: Option<Plan>, auth: WalletAuthorization) {
    && body.validityStart == auth.lowerSlot && body.ttl == auth.upperSlot
    && (body.validityStart.Some? ==> 0 <= body.validityStart.value) && (body.ttl.Some? ==> 0 <= body.ttl.value)
    && (body.validityStart.Some? && body.ttl.Some? ==> body.validityStart.value < body.ttl.value)
    && (plan.Some? && plan.value.validity.Some? ==>
          && body.validityStart.Some? && body.ttl.Some? && 1 <= auth.slots.slotLength && 0 <= auth.slots.zeroSlot
          && forall slot :: body.validityStart.value <= slot <= body.ttl.value ==>
               plan.value.validity.value.lowerPosixMs <= SlotTime(auth.slots, slot) <= plan.value.validity.value.upperPosixMs)
  }

  /** The signer field is the planned and the additional signers in lower case, without repetition, and they all must sign. */
  ghost predicate SignersRespected(body: CandidateBody, plan: Option<Plan>, auth: WalletAuthorization, required: set<Hex>) {
    && (plan.Some? ==>
          forall i :: 0 <= i < |plan.value.requiredSigners| ==>
            Lower(plan.value.requiredSigners[i]) in body.requiredSigners && Lower(plan.value.requiredSigners[i]) in required)
    && (forall i :: 0 <= i < |auth.additionalSigners| ==>
          Lower(auth.additionalSigners[i]) in body.requiredSigners && Lower(auth.additionalSigners[i]) in required)
    && (forall key <- body.requiredSigners ::
          || (plan.Some? && exists i :: 0 <= i < |plan.value.requiredSigners| && Lower(plan.value.requiredSigners[i]) == key)
          || (exists i :: 0 <= i < |auth.additionalSigners| && Lower(auth.additionalSigners[i]) == key))
    && (forall i, j :: 0 <= i < j < |body.requiredSigners| ==> body.requiredSigners[i] != body.requiredSigners[j])
    && (forall i :: 0 <= i < |body.requiredSigners| ==>
          ParseHex(body.requiredSigners[i]).Ok? && |ParseHex(body.requiredSigners[i]).value| == 28)
  }

  /** No unsupported effect, the wallet's network, and script data exactly when something executes. */
  ghost predicate HeaderRespected(tx: Candidate, plan: Option<Plan>, auth: WalletAuthorization) {
    && tx.isValid && !tx.body.purposeFields && auth.networkId in {0, 1}
    && (tx.body.networkId.Some? ==> tx.body.networkId.value == auth.networkId)
    && (plan.Some? ==>
          plan.value.deployment.network == auth.networkName && Lower(plan.value.deployment.networkDomain) == Lower(auth.networkDomain))
    && (tx.witnesses.redeemers == [] <==> tx.body.scriptDataHash == None)
    && auth.change.address.networkId == auth.networkId && auth.change.address.payment.Some?
    && auth.change.address.payment.value.kind == Key && auth.change.address.kind != OtherAddress
  }

  lemma TimesInside(slots: SlotConfig, start: int, end: int, slot: int, lower: int, upper: int)
    requires 0 < slots.slotLength && start <= slot <= end
    requires lower <= SlotTime(slots, start) && SlotTime(slots, end) <= upper
    ensures lower <= SlotTime(slots, slot) <= upper
  {
    var zero, length := slots.zeroSlot, slots.slotLength;
    assert (start - zero) * length <= (slot - zero) * length <= (end - zero) * length;
  }

  lemma IntervalIsRespected(body: CandidateBody, plan: Option<Plan>, auth: WalletAuthorization)
    requires ValidityFits(body, plan, auth)
    ensures IntervalRespected(body, plan, auth)
  {
    if plan.Some? && plan.value.validity.Some? {
      var bounds, start, end := plan.value.validity.value, auth.lowerSlot.value, auth.upperSlot.value;
      forall slot | start <= slot <= end ensures bounds.lowerPosixMs <= SlotTime(auth.slots, slot) <= bounds.upperPosixMs {
        TimesInside(auth.slots, start, end, slot, bounds.lowerPosixMs, bounds.upperPosixMs);
      }
    }
  }

  lemma ExpectedSignersMean(plan: Option<Plan>, auth: WalletAuthorization, key: Hex)
    ensures key in ExpectedSigners(plan, auth) <==>
      || (plan.Some? && exists i :: 0 <= i < |plan.value.requiredSigners| && Lower(plan.value.requiredSigners[i]) == key)
      || (exists i :: 0 <= i < |auth.additionalSigners| && Lower(auth.additionalSigners[i]) == key)
  {
    hide Lower;
    var planned := if plan.None? then [] else plan.value.requiredSigners;
    var keys := planned + auth.additionalSigners;
    if i :| 0 <= i < |planned| && Lower(planned[i]) == key {
      assert Lower(keys[i]) == key;
    }
    if i :| 0 <= i < |auth.additionalSigners| && Lower(auth.additionalSigners[i]) == key {
      assert Lower(keys[|planned| + i]) == key;
    }
    if i :| 0 <= i < |keys| && Lower(keys[i]) == key {
      assert keys[i] == if i < |planned| then planned[i] else auth.additionalSigners[i - |planned|];
    }
  }

  lemma SignersAreRespected(body: CandidateBody, plan: Option<Plan>, auth: WalletAuthorization, required: set<Hex>)
    requires SignersFit(body, plan, auth) && forall key <- body.requiredSigners :: key in required
    ensures SignersRespected(body, plan, auth, required)
  {
    hide Lower, ExpectedSigners, ParseHex;
    forall key: Hex ensures key in body.requiredSigners <==> key in ExpectedSigners(plan, auth) {
      assert key in (set k | k in body.requiredSigners) <==> key in body.requiredSigners;
    }
    forall key: Hex ensures key in body.requiredSigners <==>
      || (plan.Some? && exists i :: 0 <= i < |plan.value.requiredSigners| && Lower(plan.value.requiredSigners[i]) == key)
      || (exists i :: 0 <= i < |auth.additionalSigners| && Lower(auth.additionalSigners[i]) == key)
    {
      ExpectedSignersMean(plan, auth, key);
    }
    if plan.Some? {
      forall i | 0 <= i < |plan.value.requiredSigners| ensures Lower(plan.value.requiredSigners[i]) in body.requiredSigners {
        var key := Lower(plan.value.requiredSigners[i]);
        assert key in body.requiredSigners <==> key in ExpectedSigners(plan, auth);
      }
    }
    forall i | 0 <= i < |auth.additionalSigners| ensures Lower(auth.additionalSigners[i]) in body.requiredSigners {
      var key := Lower(auth.additionalSigners[i]);
      assert key in body.requiredSigners <==> key in ExpectedSigners(plan, auth);
    }
    forall i | 0 <= i < |body.requiredSigners|
      ensures ParseHex(body.requiredSigners[i]).Ok? && |ParseHex(body.requiredSigners[i]).value| == 28
    {
      var key := body.requiredSigners[i];
      assert key in ExpectedSigners(plan, auth);
      assert ParseHexOf(key, 28).Ok?;
    }
  }

  lemma HeaderIsRespected(tx: Candidate, plan: Option<Plan>, auth: WalletAuthorization)
    requires HeaderFits(tx, plan, auth)
    ensures HeaderRespected(tx, plan, auth)
  {
    hide ValidPlan, ValidityFits, Lower;
  }

  /** What an approval of a candidate guarantees to the wallet. */
  ghost predicate Guarantees(tx: Candidate, plan: Option<Plan>, auth: WalletAuthorization, approval: Approval) {
    var refs := ReadBodyRefs(tx.body);
    && refs.Ok?
    && RolesAccount(tx.body.outputs, approval.roles, PlannedOutputs(plan), auth.permitted, auth.change, auth.networkId)
    && approval.fundingInputs == Unplanned(refs.value.inputs, PlannedIds(plan))
    && approval.collateralInputs == refs.value.collateral
    && approval.requiredWitnesses == RequiredKeys(tx.body, refs.value, auth)
    && HeaderRespected(tx, plan, auth) && IntervalRespected(tx.body, plan, auth)
    && SignersRespected(tx.body, plan, auth, approval.requiredWitnesses)
    && approval.fee == tx.body.fee <= auth.maxNetworkFee
    && (forall a :: Loss(tx, auth, approval, a) == AuthorizedLoss(plan, auth, a) + When(a == Ada, approval.fee))
    && approval.exposure
         == Exposure(refs.value.collateral, EvidenceMap(auth.allowedCollateral), tx.body.collateralReturn, Ada)
    && 0 <= approval.exposure <= auth.maxCollateralExposure
    && (forall a: Asset :: a.Native? ==>
          Exposure(refs.value.collateral, EvidenceMap(auth.allowedCollateral), tx.body.collateralReturn, a) == 0)
  }

  /** Approval bounds the wallet's loss exactly. */
  lemma LossIsAuthorized(tx: Candidate, plan: Option<Plan>, auth: WalletAuthorization, approval: Approval)
    requires Acceptable(tx, plan, auth)
    requires RolesAccount(tx.body.outputs, approval.roles, PlannedOutputs(plan), auth.permitted, auth.change, auth.networkId)
    requires approval.fundingInputs == Unplanned(ReadBodyRefs(tx.body).value.inputs, PlannedIds(plan))
    ensures forall a :: Loss(tx, auth, approval, a) == AuthorizedLoss(plan, auth, a) + When(a == Ada, tx.body.fee)
  {
    hide HeaderFits, InputsAcceptable, CollateralEvidenceFits, SignersFit, WitnessesFit, OutputsAcceptable;
    hide CollateralAcceptable, Amount, AmountSum, RefsSum, IsEvidence, Having, Unplanned, IsMintField, MintedValue;
    var refs := ReadBodyRefs(tx.body).value;
    forall a ensures Loss(tx, auth, approval, a) == AuthorizedLoss(plan, auth, a) + When(a == Ada, tx.body.fee) {
      SpendsSplit(refs, plan, ListsOf(auth), auth.planInputs, a);
    }
  }

  lemma ResolvedParts(refs: seq<OutRef>, m: Evidence, wanted: set<OutRef>, r: Resolution, amounts: Value)
    requires ResolvedFrom(refs, m, wanted, r, amounts)
    ensures r.resolved == ResolvedOf(refs, m) && r.selectedFunding == Unplanned(refs, wanted)
    ensures r.requiredKeys == KeysOf(refs, m)
    ensures forall a :: Qty(amounts, a) == RefsSum(refs, m, a)
  {
    hide KeysOf, AreKeysOf, RefsSum, Unplanned, ResolvedOf;
    KeysAreExact(r.requiredKeys, refs, m);
  }

  lemma PlansMintAssets(tx: Candidate, plan: Option<Plan>, auth: WalletAuthorization)
    requires HeaderFits(tx, plan, auth)
    ensures PlannedAssets(PlannedMints(plan))
  {
    hide ValidityFits, IsAsset;
    if plan.Some? {
      var p := plan.value;
      forall i | 0 <= i < |p.mint| ensures forall name <- p.mint[i].assets :: IsAsset(Native(p.mint[i].policy, name)) {
        assert ValidMint(p.mint[i], p.deployment);
      }
    }
  }

  lemma ValuesAreLedgerValues(tx: Candidate, plan: Option<Plan>, auth: WalletAuthorization)
    requires OutputsAcceptable(tx.body.outputs, PlannedOutputs(plan), auth.permitted, auth.change, auth.networkId)
    requires MintFits(tx.body.mint, PlannedMints(plan))
    ensures IsLedgerValue(MintedValue(tx.body.mint))
    ensures forall i :: 0 <= i < |tx.body.outputs| ==> IsLedgerValue(tx.body.outputs[i].value)
  {
    hide PrefixProtected, TailAccounted, Amount, MintedValue, IsLedgerValue;
    CanonicalAmount(MintedValue(tx.body.mint), Ada);
    forall i | 0 <= i < |tx.body.outputs| ensures IsLedgerValue(tx.body.outputs[i].value) {
      assert OutputId(tx.body.outputs[i], auth.networkId).Some?;
    }
  }

  lemma ApprovalGuarantees(tx: Candidate, plan: Option<Plan>, auth: WalletAuthorization, approval: Approval)
    requires Acceptable(tx, plan, auth)
    requires RolesAccount(tx.body.outputs, approval.roles, PlannedOutputs(plan), auth.permitted, auth.change, auth.networkId)
    requires approval.fundingInputs == Unplanned(ReadBodyRefs(tx.body).value.inputs, PlannedIds(plan))
    requires approval.collateralInputs == ReadBodyRefs(tx.body).value.collateral
    requires approval.requiredWitnesses == RequiredKeys(tx.body, ReadBodyRefs(tx.body).value, auth)
    requires approval.fee == tx.body.fee
    requires approval.exposure == Exposure(ReadBodyRefs(tx.body).value.collateral, EvidenceMap(auth.allowedCollateral),
      tx.body.collateralReturn, Ada)
    ensures Guarantees(tx, plan, auth, approval)
  {
    hide InputsAcceptable, CollateralEvidenceFits, SignersFit, WitnessesFit, OutputsAcceptable, Conserves, AuthorizationFits;
    hide ValidityFits, MintFits, EvidenceFits, RolesAccount, ReadBodyRefs, ResolvedOf, Exposure, Loss, AuthorizedLoss, RequiredKeys;
    hide Unplanned, CollateralAcceptable, HeaderRespected, IntervalRespected, SignersRespected;
    LossIsAuthorized(tx, plan, auth, approval);
    HeaderIsRespected(tx, plan, auth);
    IntervalIsRespected(tx.body, plan, auth);
    SignersMustSign(tx.body, ReadBodyRefs(tx.body).value, auth);
    SignersAreRespected(tx.body, plan, auth, approval.requiredWitnesses);
    ExposureIsAuthorized(ReadBodyRefs(tx.body).value.collateral, EvidenceMap(auth.allowedCollateral), tx.body.collateralReturn,
      tx.body.totalCollateral, auth.change, auth.maxCollateralExposure, auth.networkId);
  }

  lemma SignersMustSign(body: CandidateBody, refs: BodyRefs, auth: WalletAuthorization)
    ensures forall key <- body.requiredSigners :: key in RequiredKeys(body, refs, auth)
  {
    hide KeysOf;
  }

  lemma ExposureIsAuthorized(
    refs: seq<OutRef>, allowed: Evidence, returned: Option<WalletOutput>, total: Option<int>, change: ChangePolicy,
    maxExposure: int, networkId: int)
    requires CollateralAcceptable(refs, allowed, returned, total, change, maxExposure, networkId)
    ensures 0 <= Exposure(refs, allowed, returned, Ada) <= maxExposure
    ensures forall a: Asset :: a.Native? ==> Exposure(refs, allowed, returned, a) == 0
  {
    hide Exposure, IsChange;
  }

  method VerifyTransactionEffects(tx: Candidate, plan: Option<Plan>, auth: WalletAuthorization) returns (r: Result<Approval>)
    ensures r.Ok? <==> Acceptable(tx, plan, auth)
    ensures r.Ok? ==> Guarantees(tx, plan, auth, r.value)
  {
    hide HeaderFits, InputsAcceptable, CollateralEvidenceFits, SignersFit, WitnessesFit, OutputsAcceptable, Conserves;
    hide CollateralAcceptable, MintFits, EvidenceFits, RolesAccount, ReadBodyRefs, ResolvedOf, IsLedgerValue, Guarantees;
    hide CanonicalKeys, Exposure, Unplanned, RefsSum, PlannedAssets, MintedValue, MintPolicies, ResolvedFrom, PlannedIds;
    hide EvidenceMap, PlannedOutputs, PlannedMints, KeysOf;
    if !HeaderFits(tx, plan, auth) {
      return Err(Unauthorized);
    }
    var indexed := IndexAllowlists(auth);
    var read := ReadBodyRefs(tx.body);
    if indexed.Err? || read.Err? {
      return Err(Unauthorized);
    }
    var lists, refs, body := indexed.value, read.value, tx.body;
    EvidenceIsLedgerValued(auth);
    var sum := new Balance();
    var resolution := ResolveAuthorizedInputs(refs, plan, lists, sum);
    if resolution.Err? {
      return Err(resolution.error);
    }
    ResolvedParts(refs.inputs, lists.Spendable(), PlannedIds(plan), resolution.value, sum.amounts);
    var resolved := resolution.value.resolved;
    var keys := VerifyCollateralEvidence(refs.collateral, lists.collateral, resolved, resolution.value.requiredKeys);
    if keys.Err? {
      return Err(keys.error);
    }
    PlansMintAssets(tx, plan, auth);
    var minted := VerifyMint(body.mint, PlannedMints(plan));
    if !minted || !SignersFit(body, plan, auth) {
      return Err(ValueMismatch);
    }
    var witnessed := VerifyWitnesses(
      tx.witnesses, plan, refs.inputs, MintPolicies(body.mint), resolved, lists.references, refs.references);
    if !witnessed {
      return Err(BindingMismatch);
    }
    var roles := VerifyOutputs(body.outputs, PlannedOutputs(plan), auth.permitted, auth.change, auth.networkId);
    if roles.Err? {
      return Err(roles.error);
    }
    ValuesAreLedgerValues(tx, plan, auth);
    var conserved := VerifyConservation(sum, SpentOf(refs, auth), MintedValue(body.mint), body.outputs, body.fee);
    if !conserved {
      return Err(NotConserved);
    }
    var exposure := VerifyCollateral(
      refs.collateral, lists.collateral, body.collateralReturn, body.totalCollateral, auth.change,
      auth.maxCollateralExposure, auth.networkId);
    if exposure.Err? {
      return Err(exposure.error);
    }
    var approval := Approval(
      body.fee, exposure.value, resolution.value.selectedFunding, refs.collateral,
      keys.value + (set key | key in body.requiredSigners), roles.value);
    ApprovalGuarantees(tx, plan, auth, approval);
    return Ok(approval);
  }

  /** An approved candidate executes exactly its plan's scripts, or none at all without a plan. */
  lemma ApprovedExecutionIsPlanned(tx: Candidate, plan: Option<Plan>, auth: WalletAuthorization)
    requires Acceptable(tx, plan, auth)
    ensures plan.None? ==> tx.witnesses.redeemers == [] && tx.body.scriptDataHash.None?
    ensures plan.Some? ==>
      ExecutesPlan(plan.value, ReadBodyRefs(tx.body).value.inputs, MintPolicies(tx.body.mint), tx.witnesses.redeemers)
  {
    hide CollateralEvidenceFits, SignersFit, OutputsAcceptable, Conserves, CollateralAcceptable, ExecutesPlan, PlannedRequirements;
    hide ValidityFits, MintFits, EvidenceFits, ReadBodyRefs, ResolvedOf, MintPolicies, IsAddress, ValidMint, ScriptsAvailable;
    var refs := ReadBodyRefs(tx.body).value;
    var resolved := ResolvedOf(refs.inputs, ListsOf(auth).Spendable());
    if plan.Some? {
      PlannedInputsAreSpent(refs, plan, ListsOf(auth));
      ExecutionIsPlanned(plan.value, refs.inputs, MintPolicies(tx.body.mint), resolved, tx.witnesses.redeemers);
    } else {
      NoPlanNoExecution(refs.inputs, MintPolicies(tx.body.mint), resolved, tx.witnesses.redeemers);
    }
  }

  lemma PlannedInputsAreSpent(refs: BodyRefs, plan: Option<Plan>, lists: Allowlists)
    requires plan.Some? && InputsAcceptable(refs, plan, lists)
    ensures forall id <- InputRefs(plan.value.inputs) :: id in refs.inputs
  {
    forall id <- InputRefs(plan.value.inputs) ensures id in refs.inputs {
      assert id in PlannedIds(plan);
    }
  }

  lemma NoPlanNoExecution(inputs: seq<OutRef>, policies: seq<Hex>, resolved: Evidence, redeemers: seq<ObservedRedeemer>)
    requires ExactlyExpected(redeemers, PlannedRequirements(None, inputs, policies, resolved).value.expected)
    ensures redeemers == []
  {
    ExactCount(redeemers, map[]);
  }
}
