/** The wallet's policy spelled out over the candidate and the authorization alone, and that review accepts exactly it. */
module Reviews {
  import opened Results
  import opened Types
  import opened HexStrings
  import opened References
  import opened Values
  import opened Planning
  import opened AcceptedTransactions
  import opened EffectsLedger
  import opened EffectOutputs
  import opened EffectInputs
  import opened Witnesses
  import opened Effects
  import opened Approvals
  import opened Premises
  import opened Intents
  import opened Sums

  /** A base or enterprise address of the network. */
  predicate IsPayable(a: LedgerAddress, networkId: int) {
    a.networkId == networkId && a.kind in {BaseAddress, EnterpriseAddress} && a.payment != None
  }

  /** Named assets, none in two spellings. */
  predicate IsSpelled(v: Value) {
    (forall a <- v :: IsNamed(a)) && forall a, b :: a in v && b in v && AssetId(a) == AssetId(b) ==> a == b
  }

  lemma PayableMeans(a: LedgerAddress, networkId: int)
    ensures IsPaymentAddress(a, networkId) <==> IsPayable(a, networkId)
  {
  }

  lemma SpelledMeans(v: Value)
    ensures IsLedgerValue(v) <==> IsSpelled(v)
  {
    hide IsAsset, IsNamed, AssetId;
    forall a: Asset ensures IsAsset(a) <==> IsNamed(a) {
      NamedMeans(a);
    }
  }

  /** Evidence for an output that exists on the network, key-held where it must be, with no negative amount. */
  predicate IsVouched(e: ResolvedInput, networkId: int, keyOnly: bool) {
    && IsAt(e.ref) && IsPayable(e.address, networkId) && (keyOnly ==> HeldByKey(e.address))
    && IsSpelled(e.value) && forall a <- e.value :: 0 <= e.value[a]
  }

  predicate AreVouched(values: seq<ResolvedInput>, networkId: int, keyOnly: bool) {
    && (forall i :: 0 <= i < |values| ==> IsVouched(values[i], networkId, keyOnly))
    && forall i, j :: 0 <= i < j < |values| ==> Differ(values[i].ref, values[j].ref)
  }

  lemma VouchedMeans(e: ResolvedInput, networkId: int, keyOnly: bool)
    ensures IsEvidence(e, networkId, keyOnly) <==> IsVouched(e, networkId, keyOnly)
  {
    hide IsReference, IsAt, IsLedgerValue, IsSpelled, IsPaymentAddress, IsPayable;
    ReferenceMeans(e.ref);
    PayableMeans(e.address, networkId);
    SpelledMeans(e.value);
  }

  lemma AllVouched(values: seq<ResolvedInput>, networkId: int, keyOnly: bool)
    ensures IsEvidenceList(values, networkId, keyOnly) <==> AreVouched(values, networkId, keyOnly)
  {
    hide IsEvidence, IsVouched, Lower;
    forall i | 0 <= i < |values| ensures IsEvidence(values[i], networkId, keyOnly) <==> IsVouched(values[i], networkId, keyOnly) {
      VouchedMeans(values[i], networkId, keyOnly);
    }
    var ids := Ids(values, EvidenceRef);
    forall i | 0 <= i < |values| ensures ids[i] == OutRef(Lower(values[i].ref.txId), values[i].ref.index) {
    }
    if Distinct(ids) {
      forall i, j | 0 <= i < j < |values| ensures Differ(values[i].ref, values[j].ref) {
        assert ids[i] != ids[j];
      }
    }
  }

  predicate IsVouchedFor(auth: WalletAuthorization) {
    && AreVouched(auth.planInputs, auth.networkId, false) && AreVouched(auth.allowedFunding, auth.networkId, true)
    && AreVouched(auth.allowedCollateral, auth.networkId, true) && AreVouched(auth.allowedReferences, auth.networkId, false)
  }

  lemma EvidenceMeans(auth: WalletAuthorization)
    ensures EvidenceFits(auth) <==> IsVouchedFor(auth)
  {
    hide IsEvidenceList, AreVouched;
    AllVouched(auth.planInputs, auth.networkId, false);
    AllVouched(auth.allowedFunding, auth.networkId, true);
    AllVouched(auth.allowedCollateral, auth.networkId, true);
    AllVouched(auth.allowedReferences, auth.networkId, false);
  }

  lemma VouchedOnce(values: seq<ResolvedInput>, networkId: int, keyOnly: bool, i: nat, j: nat)
    requires AreVouched(values, networkId, keyOnly) && i < |values| && j < |values| && RefId(values[i].ref) == RefId(values[j].ref)
    ensures i == j
  {
    hide IsVouched, Lower;
  }

  /** What a category says of a reference. */
  lemma NamedIsMapped(values: seq<ResolvedInput>, networkId: int, keyOnly: bool, id: OutRef, e: ResolvedInput)
    requires AreVouched(values, networkId, keyOnly)
    ensures Names(values, id, e) <==> id in EvidenceMap(values) && EvidenceMap(values)[id] == e
  {
    hide EvidenceMap, IsVouched, Lower;
    EvidenceMapMeans(values);
    if Names(values, id, e) {
      var i :| 0 <= i < |values| && values[i] == e;
      assert id in EvidenceMap(values);
      var j :| 0 <= j < |values| && values[j] == EvidenceMap(values)[id];
      VouchedOnce(values, networkId, keyOnly, i, j);
    }
  }

  /** A reference list as the ledger has it: well formed and without repetition. */
  predicate IsRefList(list: seq<OutRef>) {
    && (forall i :: 0 <= i < |list| ==> IsAt(list[i]))
    && forall i, j :: 0 <= i < j < |list| ==> Differ(list[i], list[j])
  }

  lemma RefListMeans(list: seq<OutRef>)
    ensures ReadRefs(list).Ok? <==> IsRefList(list)
    ensures ReadRefs(list).Ok? ==> forall i :: 0 <= i < |list| ==> ReadRefs(list).value[i] == RefId(list[i])
  {
    hide IsReference, IsAt, Lower;
    forall i | 0 <= i < |list| ensures IsReference(list[i]) <==> IsAt(list[i]) {
      ReferenceMeans(list[i]);
    }
    var ids := Ids(list, Itself);
    if Distinct(ids) {
      forall i, j | 0 <= i < j < |list| ensures Differ(list[i], list[j]) {
        assert ids[i] != ids[j];
      }
    }
  }

  lemma BodyRefsMean(body: CandidateBody)
    ensures ReadBodyRefs(body).Ok? <==> IsRefList(body.inputs) && IsRefList(body.references) && IsRefList(body.collateral)
    ensures ReadBodyRefs(body).Ok? ==> RefsAreRead(body, ReadBodyRefs(body).value)
  {
    hide ReadRefs, IsRefList, RefId;
    RefListMeans(body.inputs);
    RefListMeans(body.references);
    RefListMeans(body.collateral);
  }

  /** Exactly the planned references have planned evidence; spends, references and planned reads are as authorized. */
  ghost predicate SpendsAuthorized(refs: BodyRefs, plan: Option<Plan>, auth: WalletAuthorization) {
    && (forall id :: Planned(plan, id) <==> exists e :: Names(auth.planInputs, id, e))
    && (forall id :: Planned(plan, id) ==> id in refs.inputs)
    && (forall id <- refs.inputs :: Planned(plan, id) || exists e :: Names(auth.allowedFunding, id, e))
    && (forall id <- refs.references ::
          id !in refs.inputs && id !in refs.collateral && exists e :: Names(auth.allowedReferences, id, e))
    && (plan.Some? ==> forall i :: 0 <= i < |plan.value.referenceInputs| ==> RefId(plan.value.referenceInputs[i]) in refs.references)
  }

  lemma PlannedMeans(plan: Option<Plan>)
    ensures forall id :: Planned(plan, id) <==> id in PlannedIds(plan)
  {
    hide RefId;
  }

  lemma CategoryMeans(values: seq<ResolvedInput>, networkId: int, keyOnly: bool)
    requires AreVouched(values, networkId, keyOnly)
    ensures forall id :: (exists e :: Names(values, id, e)) <==> id in EvidenceMap(values)
  {
    hide EvidenceMap, AreVouched, Names;
    forall id ensures (exists e :: Names(values, id, e)) <==> id in EvidenceMap(values) {
      if id in EvidenceMap(values) {
        NamedIsMapped(values, networkId, keyOnly, id, EvidenceMap(values)[id]);
      }
      if e :| Names(values, id, e) {
        NamedIsMapped(values, networkId, keyOnly, id, e);
      }
    }
  }

  lemma SpendsAuthorizedMeans(refs: BodyRefs, plan: Option<Plan>, auth: WalletAuthorization)
    requires IsVouchedFor(auth)
    ensures InputsAcceptable(refs, plan, ListsOf(auth)) <==> SpendsAuthorized(refs, plan, auth)
  {
    hide EvidenceMap, AreVouched, Names, Planned, PlannedIds, RefId;
    PlannedMeans(plan);
    CategoryMeans(auth.planInputs, auth.networkId, false);
    CategoryMeans(auth.allowedFunding, auth.networkId, true);
    CategoryMeans(auth.allowedReferences, auth.networkId, false);
    ReadsMean(refs, plan);
    assert ListsOf(auth).sources.Keys == PlannedIds(plan) <==> forall id :: id in PlannedIds(plan) <==> id in EvidenceMap(auth.planInputs);
  }

  lemma ReadsMean(refs: BodyRefs, plan: Option<Plan>)
    ensures (forall id <- PlannedReferences(plan) :: id in refs.references) <==>
      (plan.Some? ==> forall i :: 0 <= i < |plan.value.referenceInputs| ==> RefId(plan.value.referenceInputs[i]) in refs.references)
  {
    hide RefId;
    if plan.Some? {
      var planned := PlannedReferences(plan);
      forall i | 0 <= i < |planned| ensures planned[i] in planned && planned[i] == RefId(plan.value.referenceInputs[i]) {
      }
    }
  }

  /** The evidence under which a spend is resolved: planned evidence before funding. */
  predicate Resolves(auth: WalletAuthorization, plan: Option<Plan>, id: OutRef, e: ResolvedInput) {
    if Planned(plan, id) then Names(auth.planInputs, id, e) else Names(auth.allowedFunding, id, e)
  }

  /** Collateral is allowlisted and key-held; where it is also spent, both say the same of it. */
  ghost predicate CollateralVouched(refs: BodyRefs, plan: Option<Plan>, auth: WalletAuthorization) {
    forall id <- refs.collateral :: exists c ::
      && Names(auth.allowedCollateral, id, c) && HeldByKey(c.address)
      && (id in refs.inputs ==> forall e :: Resolves(auth, plan, id, e) ==>
            e.address == c.address && forall a :: Amount(e.value, a) == Amount(c.value, a))
  }

  lemma ResolvedMeans(refs: BodyRefs, plan: Option<Plan>, auth: WalletAuthorization, id: OutRef, e: ResolvedInput)
    requires IsVouchedFor(auth) && SpendsAuthorized(refs, plan, auth)
    ensures
      var resolved := ResolvedOf(refs.inputs, ListsOf(auth).Spendable());
      id in resolved && resolved[id] == e <==> id in refs.inputs && Resolves(auth, plan, id, e)
  {
    hide EvidenceMap, AreVouched, Names, Planned;
    CategoryMeans(auth.planInputs, auth.networkId, false);
    NamedIsMapped(auth.planInputs, auth.networkId, false, id, e);
    NamedIsMapped(auth.allowedFunding, auth.networkId, true, id, e);
  }

  lemma OneCollateralMeans(refs: BodyRefs, plan: Option<Plan>, auth: WalletAuthorization, id: OutRef, c: ResolvedInput)
    requires IsVouchedFor(auth) && SpendsAuthorized(refs, plan, auth) && Names(auth.allowedCollateral, id, c)
    ensures
      var resolved := ResolvedOf(refs.inputs, ListsOf(auth).Spendable());
      (id in resolved ==> SameValue(resolved[id].value, c.value) == Ok(true) && resolved[id].address == c.address) <==>
      (id in refs.inputs ==> forall e :: Resolves(auth, plan, id, e) ==>
         e.address == c.address && forall a :: Amount(e.value, a) == Amount(c.value, a))
  {
    hide SpendsAuthorized, AreVouched, Names, Resolves, ResolvedOf, SameValue, Amount, ListsOf;
    var resolved := ResolvedOf(refs.inputs, ListsOf(auth).Spendable());
    forall e ensures id in resolved && resolved[id] == e <==> id in refs.inputs && Resolves(auth, plan, id, e) {
      ResolvedMeans(refs, plan, auth, id, e);
    }
    if id in resolved {
      SameValueMeans(resolved[id].value, c.value);
      SpendableIsSpelled(refs, plan, auth, id, resolved[id]);
      NamedIsSpelled(auth.allowedCollateral, auth.networkId, true, id, c);
    }
  }

  lemma NamedIsSpelled(values: seq<ResolvedInput>, networkId: int, keyOnly: bool, id: OutRef, e: ResolvedInput)
    requires AreVouched(values, networkId, keyOnly) && Names(values, id, e)
    ensures IsLedgerValue(e.value)
  {
    hide IsSpelled, IsLedgerValue, Differ;
    SpelledMeans(e.value);
  }

  lemma SpendableIsSpelled(refs: BodyRefs, plan: Option<Plan>, auth: WalletAuthorization, id: OutRef, e: ResolvedInput)
    requires IsVouchedFor(auth) && Resolves(auth, plan, id, e)
    ensures IsLedgerValue(e.value)
  {
    hide AreVouched, Names, IsLedgerValue;
    if Planned(plan, id) {
      NamedIsSpelled(auth.planInputs, auth.networkId, false, id, e);
    } else {
      NamedIsSpelled(auth.allowedFunding, auth.networkId, true, id, e);
    }
  }

  lemma CollateralVouchedMeans(refs: BodyRefs, plan: Option<Plan>, auth: WalletAuthorization)
    requires IsVouchedFor(auth) && SpendsAuthorized(refs, plan, auth)
    ensures CollateralEvidenceFits(refs.collateral, EvidenceMap(auth.allowedCollateral), ResolvedOf(refs.inputs, ListsOf(auth).Spendable()))
       <==> CollateralVouched(refs, plan, auth)
  {
    hide SpendsAuthorized, AreVouched, Names, Resolves, ResolvedOf, SameValue, Amount, ListsOf, EvidenceMap;
    var allowed, resolved := EvidenceMap(auth.allowedCollateral), ResolvedOf(refs.inputs, ListsOf(auth).Spendable());
    forall id, c ensures Names(auth.allowedCollateral, id, c) <==> id in allowed && allowed[id] == c {
      NamedIsMapped(auth.allowedCollateral, auth.networkId, true, id, c);
    }
    forall id | id in allowed
      ensures (id in resolved ==> SameValue(resolved[id].value, allowed[id].value) == Ok(true) && resolved[id].address == allowed[id].address)
        <==> (id in refs.inputs ==> forall e :: Resolves(auth, plan, id, e) ==>
                e.address == allowed[id].address && forall a :: Amount(e.value, a) == Amount(allowed[id].value, a))
    {
      OneCollateralMeans(refs, plan, auth, id, allowed[id]);
    }
    CollateralPerRef(refs.collateral, allowed, resolved);
  }

  /** Evidence by position is evidence by reference. */
  lemma CollateralPerRef(refs: seq<OutRef>, allowed: Evidence, resolved: Evidence)
    ensures CollateralEvidenceFits(refs, allowed, resolved) <==>
      forall id <- refs ::
        && id in allowed && HeldByKey(allowed[id].address)
        && (id in resolved ==> SameValue(resolved[id].value, allowed[id].value) == Ok(true) && resolved[id].address == allowed[id].address)
  {
    hide SameValue;
    forall i | 0 <= i < |refs| ensures refs[i] in refs {
    }
  }

  /** The authorization itself makes sense, and the candidate's header respects it. */
  ghost predicate IsHeaded(tx: Candidate, plan: Option<Plan>, auth: WalletAuthorization) {
    && (plan.Some? ==> UsesApart(plan.value) && MakesSound(plan.value))
    && 0 <= auth.maxCollateralExposure && tx.body.fee <= auth.maxNetworkFee
    && HeaderRespected(tx, plan, auth) && IntervalRespected(tx.body, plan, auth)
  }

  lemma IntervalMeans(body: CandidateBody, plan: Option<Plan>, auth: WalletAuthorization)
    ensures ValidityFits(body, plan, auth) <==> IntervalRespected(body, plan, auth)
  {
    if ValidityFits(body, plan, auth) {
      IntervalIsRespected(body, plan, auth);
    }
    if IntervalRespected(body, plan, auth) && plan.Some? && plan.value.validity.Some? {
      var bounds, start, end := plan.value.validity.value, body.validityStart.value, body.ttl.value;
      assert bounds.lowerPosixMs <= SlotTime(auth.slots, start) && SlotTime(auth.slots, end) <= bounds.upperPosixMs;
    }
  }

  lemma HeaderMeans(tx: Candidate, plan: Option<Plan>, auth: WalletAuthorization)
    ensures HeaderFits(tx, plan, auth) <==> IsHeaded(tx, plan, auth)
  {
    hide ValidPlan, ValidityFits, IntervalRespected, UsesApart, MakesSound, Lower;
    IntervalMeans(tx.body, plan, auth);
    if plan.Some? {
      PlanMeans(plan.value);
    }
  }

  predicate IsMinted(mint: seq<ObservedMint>) {
    forall m <- mint :: 0 !in m.assets.Values
  }

  /** Signed nonzero amounts of named assets in lower case, of each asset what the plan mints. */
  ghost predicate MintsPlanned(mint: seq<ObservedMint>, planned: seq<PlannedMint>) {
    && IsMinted(mint)
    && (forall a <- MintedValue(mint) :: IsNamed(a) && AssetId(a) == a)
    && forall a :: Amount(MintedValue(mint), a) == PlannedMintOf(planned, a)
  }

  lemma MintMeans(mint: seq<ObservedMint>, planned: seq<PlannedMint>)
    ensures MintFits(mint, planned) <==> MintsPlanned(mint, planned)
  {
    hide IsAsset, IsNamed, AssetId, Amount, MintedValue, PlannedMintOf;
    forall a: Asset ensures IsAsset(a) <==> IsNamed(a) {
      NamedMeans(a);
    }
    MintedMeans(mint);
  }

  lemma MintedMeans(mint: seq<ObservedMint>)
    ensures IsMinted(mint) <==> forall i :: 0 <= i < |mint| ==> forall name <- mint[i].assets :: mint[i].assets[name] != 0
  {
    if IsMinted(mint) {
      forall i, name | 0 <= i < |mint| && name in mint[i].assets ensures mint[i].assets[name] != 0 {
        assert mint[i].assets[name] in mint[i].assets.Values;
      }
    }
  }

  /** What a plan mints: nothing, or of each name its quantity, added up over the plan's mints. */
  lemma PlannedMintAdds(mints: seq<PlannedMint>, policy: Hex, name: Hex, quantity: int, redeemer: MintRedeemer, a: Asset)
    ensures PlannedMintOf([], a) == 0
    ensures PlannedMintOf(mints + [PlannedMint(policy, map[name := quantity], redeemer)], a)
         == PlannedMintOf(mints, a) + When(AssetId(Native(policy, name)) == a, quantity)
  {
    hide AssetId;
    var last := PlannedMint(policy, map[name := quantity], redeemer);
    assert (mints + [last])[..|mints|] == mints;
    assert last.assets.Keys == {name};
    SumRemove({name}, name, MintAt(last, a));
    assert {name} - {name} == {};
    assert Sum({}, MintAt(last, a)) == 0;
  }

  lemma SignersMean(body: CandidateBody, plan: Option<Plan>, auth: WalletAuthorization)
    ensures SignersFit(body, plan, auth) <==> SignersRespected(body, plan, auth, set key | key in body.requiredSigners)
  {
    hide Lower, ExpectedSigners, ParseHex;
    var field := set key | key in body.requiredSigners;
    if SignersFit(body, plan, auth) {
      SignersAreRespected(body, plan, auth, field);
    }
    if SignersRespected(body, plan, auth, field) {
      forall key ensures key in field <==> key in ExpectedSigners(plan, auth) {
        ExpectedSignersMean(plan, auth, key);
      }
      assert field == ExpectedSigners(plan, auth);
      forall key <- ExpectedSigners(plan, auth) ensures ParseHexOf(key, 28).Ok? {
        assert key in field;
        var i :| 0 <= i < |body.requiredSigners| && body.requiredSigners[i] == key;
      }
    }
  }

  /** An output that review can compare: payable on the network, with named assets. */
  predicate IsComparable(o: WalletOutput, networkId: int) {
    IsPayable(o.address, networkId) && IsSpelled(o.value)
  }

  lemma ComparableMeans(o: WalletOutput, networkId: int)
    ensures OutputId(o, networkId).Some? <==> IsComparable(o, networkId)
  {
    hide IsLedgerValue, IsSpelled, Lower;
    PayableMeans(o.address, networkId);
    SpelledMeans(o.value);
  }

  /** An output is the planned one exactly when it stands at its address with its datum, every amount, and no script. */
  lemma ProtectedMeans(o: WalletOutput, planned: PlannedOutput, networkId: int)
    ensures SameOutput(o, ExpectedOutput(planned, networkId), networkId) <==>
      && IsComparable(o, networkId) && IsSpelled(planned.value) && IsPlannedOutput(o, planned, networkId)
      && forall a :: Amount(o.value, a) == Amount(planned.value, a)
  {
    hide IsLedgerValue, IsSpelled, Lower, Amount, SameValue;
    SpelledMeans(o.value);
    SpelledMeans(planned.value);
    SameValueMeans(o.value, planned.value);
  }

  /** The wallet's own address, its datum mode and content, and no script. */
  predicate IsOwnChange(o: WalletOutput, change: ChangePolicy) {
    && o.address == change.address && o.script == None
    && match change.datum
       case NoDatum => o.datum == NoDatum
       case InlineDatum(d) => o.datum == InlineDatum(d)
       case HashDatum(h) => o.datum.HashDatum? && Lower(o.datum.hash) == Lower(h)
  }

  lemma ChangeMeans(o: WalletOutput, change: ChangePolicy, networkId: int)
    ensures IsChange(o, change, networkId) <==> IsPayable(change.address, networkId) && IsOwnChange(o, change)
  {
    hide Lower;
  }

  /** What an output is to the comparison: its address, its amounts, its datum up to the spelling of a hash, its script. */
  predicate Interchangeable(o: WalletOutput, p: WalletOutput) {
    && o.address == p.address && o.script == p.script && SameDatum(o.datum, p.datum)
    && NormalizedValue(o.value) == NormalizedValue(p.value)
  }

  lemma InterchangeableMeans(o: WalletOutput, p: WalletOutput, networkId: int)
    requires IsComparable(o, networkId) && IsComparable(p, networkId)
    ensures OutputId(o, networkId) == OutputId(p, networkId) <==> Interchangeable(o, p)
    ensures Interchangeable(o, p) <==>
      && o.address == p.address && o.script == p.script && SameDatum(o.datum, p.datum)
      && forall a :: Amount(o.value, a) == Amount(p.value, a)
  {
    hide IsLedgerValue, IsSpelled, Lower, Amount, SameValue, NormalizedValue;
    ComparableMeans(o, networkId);
    ComparableMeans(p, networkId);
    SpelledMeans(o.value);
    SpelledMeans(p.value);
    SameValueMeans(o.value, p.value);
    NormalizedIsOk(o.value);
    NormalizedIsOk(p.value);
  }

  lemma NormalizedIsOk(v: Value)
    requires IsSpelled(v)
    ensures NormalizedValue(v).Ok?
  {
    SpelledMeans(v);
  }

  /** What the failure path takes of an asset: the evidence of the collateral, less its return. */
  function Risk(body: CandidateBody, refs: seq<OutRef>, auth: WalletAuthorization, a: Asset): int {
    RefsSum(refs, EvidenceMap(auth.allowedCollateral), a)
    - (if body.collateralReturn == None then 0 else Amount(body.collateralReturn.value.value, a))
  }

  /** Bounded ADA at risk: every return is comparable change, no token is at risk, and a stated total is the exact one. */
  ghost predicate CollateralBounded(body: CandidateBody, refs: seq<OutRef>, auth: WalletAuthorization) {
    var returned, total := body.collateralReturn, body.totalCollateral;
    && (returned.Some? ==> IsComparable(returned.value, auth.networkId) && IsOwnChange(returned.value, auth.change))
    && (forall a: Asset :: a != Ada ==> Risk(body, refs, auth, a) == 0)
    && 0 <= Risk(body, refs, auth, Ada) <= auth.maxCollateralExposure
    && (refs == [] ==> returned == None && total == None)
    && (returned.Some? || total.Some? ==> total == Some(Risk(body, refs, auth, Ada)))
  }

  lemma CollateralMeans(body: CandidateBody, refs: seq<OutRef>, auth: WalletAuthorization)
    requires IsPayable(auth.change.address, auth.networkId) && forall id <- refs :: id in EvidenceMap(auth.allowedCollateral)
    ensures CollateralAcceptable(refs, EvidenceMap(auth.allowedCollateral), body.collateralReturn, body.totalCollateral, auth.change,
              auth.maxCollateralExposure, auth.networkId)
       <==> CollateralBounded(body, refs, auth)
  {
    hide OutputId, IsChange, IsOwnChange, IsComparable, RefsSum, Amount, EvidenceMap;
    forall a: Asset
      ensures Exposure(refs, EvidenceMap(auth.allowedCollateral), body.collateralReturn, a) == Risk(body, refs, auth, a)
    {
    }
    if body.collateralReturn.Some? {
      ComparableMeans(body.collateralReturn.value, auth.networkId);
      ChangeMeans(body.collateralReturn.value, auth.change, auth.networkId);
    }
  }

  /** How many of the outputs are interchangeable with one. */
  function CountLike(outputs: seq<WalletOutput>, o: WalletOutput): nat {
    if outputs == [] then 0
    else CountLike(outputs[..|outputs| - 1], o) + if Interchangeable(outputs[|outputs| - 1], o) then 1 else 0
  }

  lemma {:induction false} CountIsMultiplicity(outputs: seq<WalletOutput>, o: WalletOutput, networkId: int)
    requires IsComparable(o, networkId) && forall p <- outputs :: IsComparable(p, networkId)
    ensures Bag(outputs, networkId)[OutputId(o, networkId)] == CountLike(outputs, o)
  {
    hide OutputId, Interchangeable, Bag, IsComparable;
    if outputs == [] {
      EmptyBag(networkId);
    } else {
      var earlier, last := outputs[..|outputs| - 1], outputs[|outputs| - 1];
      assert outputs == earlier + [last];
      CountIsMultiplicity(earlier, o, networkId);
      BagAppend(earlier, last, networkId);
      InterchangeableMeans(last, o, networkId);
    }
  }

  lemma EmptyBag(networkId: int)
    ensures Bag([], networkId) == multiset{}
  {
  }

  /** Each permitted output occurs at least as often as permitted, and an output beyond what is permitted is change. */
  ghost predicate TailAuthorized(tail: seq<WalletOutput>, auth: WalletAuthorization) {
    && (forall o <- auth.permitted :: IsComparable(o, auth.networkId) && CountLike(auth.permitted, o) <= CountLike(tail, o))
    && forall o <- tail :: CountLike(auth.permitted, o) < CountLike(tail, o) ==> IsOwnChange(o, auth.change)
  }

  lemma BagMembers(outputs: seq<WalletOutput>, networkId: int, id: Option<WalletOutput>)
    ensures id in Bag(outputs, networkId) <==> exists o :: o in outputs && OutputId(o, networkId) == id
  {
    hide OutputId;
    var ids := IdsOf(outputs, networkId);
    if id in Bag(outputs, networkId) {
      assert id in ids;
      var i :| 0 <= i < |ids| && ids[i] == id;
      assert outputs[i] in outputs;
    }
    if o :| o in outputs && OutputId(o, networkId) == id {
      var i :| 0 <= i < |outputs| && outputs[i] == o;
      assert ids[i] == id;
    }
  }

  lemma IdKeepsChange(o: WalletOutput, change: ChangePolicy, networkId: int)
    requires IsComparable(o, networkId) && IsPayable(change.address, networkId)
    ensures OutputId(o, networkId).Some? && (IsChange(OutputId(o, networkId).value, change, networkId) <==> IsOwnChange(o, change))
  {
    hide IsSpelled, IsLedgerValue, Lower;
    ComparableMeans(o, networkId);
    if o.datum.HashDatum? {
      LowerIsIdempotent(o.datum.hash);
    }
  }

  lemma TailMeans(tail: seq<WalletOutput>, auth: WalletAuthorization)
    requires IsPayable(auth.change.address, auth.networkId) && forall o <- tail :: IsComparable(o, auth.networkId)
    ensures TailAccounted(tail, auth.permitted, auth.change, auth.networkId) <==> TailAuthorized(tail, auth)
  {
    hide OutputId, IsComparable, Bag, CountLike, IsChange, IsOwnChange, IsPayable, TailAuthorized, TailAccounted;
    if TailAccounted(tail, auth.permitted, auth.change, auth.networkId) {
      AccountedIsAuthorized(tail, auth);
    }
    if TailAuthorized(tail, auth) {
      AuthorizedIsAccounted(tail, auth);
    }
  }

  lemma AccountedIsAuthorized(tail: seq<WalletOutput>, auth: WalletAuthorization)
    requires IsPayable(auth.change.address, auth.networkId) && forall o <- tail :: IsComparable(o, auth.networkId)
    requires TailAccounted(tail, auth.permitted, auth.change, auth.networkId)
    ensures TailAuthorized(tail, auth)
  {
    hide OutputId, IsComparable, Bag, CountLike, IsChange, IsOwnChange, IsPayable;
    var n := auth.networkId;
    forall o <- auth.permitted ensures IsComparable(o, n) {
      BagMembers(auth.permitted, n, OutputId(o, n));
      BagMembers(tail, n, OutputId(o, n));
      assert Bag(auth.permitted, n)[OutputId(o, n)] <= Bag(tail, n)[OutputId(o, n)];
      var p :| p in tail && OutputId(p, n) == OutputId(o, n);
      ComparableMeans(o, n);
      ComparableMeans(p, n);
    }
    forall o | IsComparable(o, n)
      ensures Bag(tail, n)[OutputId(o, n)] == CountLike(tail, o)
      ensures Bag(auth.permitted, n)[OutputId(o, n)] == CountLike(auth.permitted, o)
    {
      CountIsMultiplicity(tail, o, n);
      CountIsMultiplicity(auth.permitted, o, n);
    }
    forall o <- auth.permitted ensures CountLike(auth.permitted, o) <= CountLike(tail, o) {
      assert Bag(auth.permitted, n)[OutputId(o, n)] <= Bag(tail, n)[OutputId(o, n)];
    }
    forall o <- tail | CountLike(auth.permitted, o) < CountLike(tail, o) ensures IsOwnChange(o, auth.change) {
      assert OutputId(o, n) in Bag(tail, n) - Bag(auth.permitted, n);
      IdKeepsChange(o, auth.change, n);
    }
  }

  lemma AuthorizedIsAccounted(tail: seq<WalletOutput>, auth: WalletAuthorization)
    requires IsPayable(auth.change.address, auth.networkId) && forall o <- tail :: IsComparable(o, auth.networkId)
    requires TailAuthorized(tail, auth)
    ensures TailAccounted(tail, auth.permitted, auth.change, auth.networkId)
  {
    hide OutputId, IsComparable, Bag, CountLike, IsChange, IsOwnChange, IsPayable;
    var n := auth.networkId;
    forall o | IsComparable(o, n)
      ensures Bag(tail, n)[OutputId(o, n)] == CountLike(tail, o)
      ensures Bag(auth.permitted, n)[OutputId(o, n)] == CountLike(auth.permitted, o)
    {
      CountIsMultiplicity(tail, o, n);
      CountIsMultiplicity(auth.permitted, o, n);
    }
    forall id ensures Bag(auth.permitted, n)[id] <= Bag(tail, n)[id] {
      if id in Bag(auth.permitted, n) {
        BagMembers(auth.permitted, n, id);
        var o :| o in auth.permitted && OutputId(o, n) == id;
        assert CountLike(auth.permitted, o) <= CountLike(tail, o);
      }
    }
    forall id | id in Bag(tail, n) - Bag(auth.permitted, n) ensures id.Some? && IsChange(id.value, auth.change, n) {
      BagMembers(tail, n, id);
      var o :| o in tail && OutputId(o, n) == id;
      assert CountLike(auth.permitted, o) < CountLike(tail, o);
      IdKeepsChange(o, auth.change, n);
    }
  }

  /** The planned outputs first, each as planned; then permitted ones and change; every output comparable. */
  ghost predicate OutputsAuthorized(body: CandidateBody, plan: Option<Plan>, auth: WalletAuthorization) {
    var planned := if plan == None then [] else plan.value.outputs;
    && (forall o <- body.outputs :: IsComparable(o, auth.networkId))
    && |planned| <= |body.outputs|
    && (forall i :: 0 <= i < |planned| ==>
          && IsPlannedOutput(body.outputs[i], planned[i], auth.networkId) && IsSpelled(planned[i].value)
          && forall a :: Amount(body.outputs[i].value, a) == Amount(planned[i].value, a))
    && TailAuthorized(body.outputs[|planned|..], auth)
  }

  lemma OutputsAuthorizedMean(body: CandidateBody, plan: Option<Plan>, auth: WalletAuthorization)
    requires IsPayable(auth.change.address, auth.networkId)
    ensures OutputsAcceptable(body.outputs, PlannedOutputs(plan), auth.permitted, auth.change, auth.networkId)
       <==> OutputsAuthorized(body, plan, auth)
  {
    hide OutputId, IsComparable, TailAccounted, TailAuthorized, SameOutput, ExpectedOutput, IsPlannedOutput, IsSpelled, Amount, IsPayable;
    forall o <- body.outputs ensures OutputId(o, auth.networkId).Some? <==> IsComparable(o, auth.networkId) {
      ComparableMeans(o, auth.networkId);
    }
    var planned := PlannedOutputs(plan);
    if |planned| <= |body.outputs| {
      forall i | 0 <= i < |planned|
        ensures SameOutput(body.outputs[i], ExpectedOutput(planned[i], auth.networkId), auth.networkId) <==>
          && IsComparable(body.outputs[i], auth.networkId) && IsSpelled(planned[i].value)
          && IsPlannedOutput(body.outputs[i], planned[i], auth.networkId)
          && forall a :: Amount(body.outputs[i].value, a) == Amount(planned[i].value, a)
      {
        ProtectedMeans(body.outputs[i], planned[i], auth.networkId);
      }
      if forall o <- body.outputs :: IsComparable(o, auth.networkId) {
        TailMeans(body.outputs[|planned|..], auth);
      }
      forall i | 0 <= i < |body.outputs| ensures body.outputs[i] in body.outputs {
      }
    }
  }

  lemma LeastGoesFirst(text: Hex, texts: seq<Hex>)
    requires texts == [] || TextLess(text, texts[0])
    requires forall i, j :: 0 <= i < j < |texts| ==> !TextLess(texts[j], texts[i])
    ensures forall j :: 0 <= j < |texts| ==> !TextLess(texts[j], text)
  {
    hide TextLess;
    forall j | 0 <= j < |texts| ensures !TextLess(texts[j], text) {
      TextOrder(texts[j], texts[0]);
      if TextLess(texts[j], text) {
        TextTransitive(texts[j], text, texts[0]);
      }
    }
  }

  ghost predicate IsOrderedText(texts: seq<Hex>) {
    forall i, j :: 0 <= i < j < |texts| ==> !TextLess(texts[j], texts[i])
  }

  lemma PrependArranges(first: Hex, rest: seq<Hex>)
    requires IsOrderedText(rest) && forall j :: 0 <= j < |rest| ==> !TextLess(rest[j], first)
    ensures IsOrderedText([first] + rest) && multiset([first] + rest) == multiset{first} + multiset(rest)
  {
    hide TextLess;
  }

  lemma {:induction false} InsertTextArranges(text: Hex, texts: seq<Hex>)
    requires IsOrderedText(texts)
    ensures IsOrderedText(InsertText(text, texts)) && multiset(InsertText(text, texts)) == multiset{text} + multiset(texts)
  {
    hide TextLess, IsOrderedText;
    if texts == [] || TextLess(text, texts[0]) {
      OrderedIsTail(texts);
      LeastGoesFirst(text, texts);
      PrependArranges(text, texts);
    } else {
      var first, more := texts[0], texts[1..];
      assert texts == [first] + more;
      OrderedIsTail(texts);
      InsertTextArranges(text, more);
      var rest := InsertText(text, more);
      forall j | 0 <= j < |rest| ensures !TextLess(rest[j], first) {
        InsertedIsMember(rest, text, more, j);
      }
      PrependArranges(first, rest);
    }
  }

  lemma OrderedIsTail(texts: seq<Hex>)
    requires IsOrderedText(texts)
    ensures forall i, j :: 0 <= i < j < |texts| ==> !TextLess(texts[j], texts[i])
    ensures texts != [] ==> IsOrderedText(texts[1..]) && forall k :: 0 <= k < |texts[1..]| ==> !TextLess(texts[1..][k], texts[0])
  {
    hide TextLess;
  }

  lemma InsertedIsMember(rest: seq<Hex>, text: Hex, more: seq<Hex>, j: nat)
    requires multiset(rest) == multiset{text} + multiset(more) && j < |rest|
    ensures rest[j] == text || exists k :: 0 <= k < |more| && more[k] == rest[j]
  {
    assert rest[j] in multiset(rest);
    if rest[j] != text {
      assert rest[j] in multiset(more);
    }
  }

  /** The policies of a mint field as the ledger indexes them: each once for its entry, in the order of their text. */
  lemma {:induction false} PoliciesAreOrdered(texts: seq<Hex>)
    ensures
      var sorted := SortTexts(texts);
      multiset(sorted) == multiset(texts) && IsOrderedText(sorted)
  {
    hide TextLess;
    if texts != [] {
      assert texts == [texts[0]] + texts[1..];
      PoliciesAreOrdered(texts[1..]);
      InsertTextArranges(texts[0], SortTexts(texts[1..]));
    }
  }

  lemma {:induction false} IndexIsFirst(policies: seq<Hex>, policy: Hex)
    ensures policy in policies ==>
      && 0 <= MintPointer(policies, policy).index < |policies| && policies[MintPointer(policies, policy).index] == policy
      && forall k :: 0 <= k < MintPointer(policies, policy).index ==> policies[k] != policy
    ensures MintPointer(policies, policy).tag == MintTag
  {
    if policies != [] && policies[0] != policy {
      IndexIsFirst(policies[1..], policy);
    }
  }

  /** No two mints of a plan share a policy, and at most one of two is absent from the mint field. */
  predicate MintsApart(plan: Plan, k: nat, policies: seq<Hex>) {
    forall i, j :: 0 <= i < j < k && j < |plan.mint| ==>
      && Lower(plan.mint[i].policy) != Lower(plan.mint[j].policy)
      && (Lower(plan.mint[i].policy) in policies || Lower(plan.mint[j].policy) in policies)
  }

  lemma PointersApart(policies: seq<Hex>, a: Hex, b: Hex)
    ensures MintPointer(policies, a) == MintPointer(policies, b) <==> a == b || (a !in policies && b !in policies)
  {
    IndexIsFirst(policies, a);
    IndexIsFirst(policies, b);
  }

  lemma OneSpendIsPlaced(q: Requirements, plan: Plan, i: nat, inputs: seq<OutRef>, resolved: Evidence)
    requires i < |plan.inputs|
    ensures RequireSpend(q, plan, plan.inputs[i], inputs, resolved).Ok? <==> SpendIsPlaced(plan, i, resolved)
  {
    hide SpendPointer, Lower;
  }

  lemma {:induction false} SpendsArePlaced(plan: Plan, k: nat, inputs: seq<OutRef>, resolved: Evidence)
    requires k <= |plan.inputs|
    ensures RequireSpends(plan, k, inputs, resolved).Ok? <==> forall i :: 0 <= i < k ==> SpendIsPlaced(plan, i, resolved)
  {
    hide RequireSpend, SpendIsPlaced;
    if k > 0 {
      SpendsArePlaced(plan, k - 1, inputs, resolved);
      var earlier := RequireSpends(plan, k - 1, inputs, resolved);
      if earlier.Ok? {
        OneSpendIsPlaced(earlier.value, plan, k - 1, inputs, resolved);
      }
    }
  }

  lemma NextMintFits(q: Requirements, plan: Plan, k: nat, policies: seq<Hex>)
    requires k < |plan.mint| && RequireMints(q, plan.mint, k, policies).Ok?
    requires forall pointer <- q.expected :: pointer.tag == SpendTag
    ensures
      var pointer := MintPointer(policies, Lower(plan.mint[k].policy));
      pointer !in RequireMints(q, plan.mint, k, policies).value.expected <==>
        forall i :: 0 <= i < k ==> MintPointer(policies, Lower(plan.mint[i].policy)) != pointer
  {
    hide Lower, MintPointer, RequireMints;
    RequiredMintsMean(q, plan.mint, k, policies);
    MintPointerTag(policies, Lower(plan.mint[k].policy));
  }

  lemma NextMintApart(plan: Plan, k: nat, policies: seq<Hex>)
    requires k < |plan.mint|
    ensures MintsApart(plan, k + 1, policies) <==>
      && MintsApart(plan, k, policies)
      && forall i :: 0 <= i < k ==>
           MintPointer(policies, Lower(plan.mint[i].policy)) != MintPointer(policies, Lower(plan.mint[k].policy))
  {
    hide Lower, MintPointer, MintsApart;
    OneMoreMint(plan, k + 1, policies);
    forall i | 0 <= i < k
      ensures MintPointer(policies, Lower(plan.mint[i].policy)) == MintPointer(policies, Lower(plan.mint[k].policy)) <==>
        || Lower(plan.mint[i].policy) == Lower(plan.mint[k].policy)
        || (Lower(plan.mint[i].policy) !in policies && Lower(plan.mint[k].policy) !in policies)
    {
      PointersApart(policies, Lower(plan.mint[i].policy), Lower(plan.mint[k].policy));
    }
  }

  lemma {:induction false} MintsAreApart(q: Requirements, plan: Plan, k: nat, policies: seq<Hex>)
    requires k <= |plan.mint| && forall pointer <- q.expected :: pointer.tag == SpendTag
    ensures RequireMints(q, plan.mint, k, policies).Ok? <==> MintsApart(plan, k, policies)
  {
    hide Lower, MintPointer, MintsApart;
    if k == 0 {
      NoMintApart(plan, policies);
    } else {
      MintsAreApart(q, plan, k - 1, policies);
      NextMintApart(plan, k - 1, policies);
      if RequireMints(q, plan.mint, k - 1, policies).Ok? {
        NextMintFits(q, plan, k - 1, policies);
      }
    }
  }

  lemma NoMintApart(plan: Plan, policies: seq<Hex>)
    ensures MintsApart(plan, 0, policies)
  {
  }

  lemma OneMoreMint(plan: Plan, k: nat, policies: seq<Hex>)
    requires 0 < k <= |plan.mint|
    ensures MintsApart(plan, k, policies) <==>
      && MintsApart(plan, k - 1, policies)
      && forall i :: 0 <= i < k - 1 ==>
           && Lower(plan.mint[i].policy) != Lower(plan.mint[k - 1].policy)
           && (Lower(plan.mint[i].policy) in policies || Lower(plan.mint[k - 1].policy) in policies)
  {
    hide Lower;
  }

  /** The planned execution, and exactly the programs that it needs. */
  ghost predicate ExecutionAuthorized(tx: Candidate, refs: BodyRefs, plan: Option<Plan>, auth: WalletAuthorization, resolved: Evidence) {
    && ProgramsRespected(tx, refs, plan, auth, resolved)
    && (plan.Some? ==>
          && MintsApart(plan.value, |plan.value.mint|, MintPolicies(tx.body.mint))
          && ExecutesPlan(plan.value, refs.inputs, MintPolicies(tx.body.mint), tx.witnesses.redeemers))
  }

  lemma PlannedIsExpected(
    plan: Plan, inputs: seq<OutRef>, policies: seq<Hex>, resolved: Evidence, redeemers: seq<ObservedRedeemer>)
    requires PlannedRequirements(Some(plan), inputs, policies, resolved).Ok?
    requires Distinct(InputRefs(plan.inputs)) && forall id <- InputRefs(plan.inputs) :: id in inputs
    requires ExecutesPlan(plan, inputs, policies, redeemers)
    ensures ExactlyExpected(redeemers, PlannedRequirements(Some(plan), inputs, policies, resolved).value.expected)
  {
    hide PlannedRequirements, SpendPointer, MintPointer, RefId, Lower;
    RequirementsMean(plan, inputs, policies, resolved);
    var expected := PlannedRequirements(Some(plan), inputs, policies, resolved).value.expected;
    forall k | 0 <= k < |redeemers|
      ensures redeemers[k].pointer in expected && redeemers[k].data == Some(expected[redeemers[k].pointer])
    {
      var pointer := redeemers[k].pointer;
      if pointer.tag.SpendTag? {
        var i :| IsSpendOf(plan, i, inputs, pointer);
        OnlyOne(redeemers, k, pointer, plan.inputs[i].redeemer.value);
      } else {
        var j :| IsMintOf(plan, j, policies, pointer);
        OnlyOne(redeemers, k, pointer, MintAction(plan.mint[j].redeemer));
      }
    }
    forall pointer <- expected ensures exists k :: 0 <= k < |redeemers| && redeemers[k].pointer == pointer {
      if i :| IsSpendOf(plan, i, inputs, pointer) {
        assert Observed(redeemers, pointer, plan.inputs[i].redeemer.value);
      } else {
        var j :| IsMintOf(plan, j, policies, pointer);
        assert Observed(redeemers, pointer, MintAction(plan.mint[j].redeemer));
      }
    }
  }

  lemma OnlyOne(redeemers: seq<ObservedRedeemer>, k: nat, pointer: Pointer, data: Redeemer)
    requires Distinct(Pointers(redeemers)) && k < |redeemers| && redeemers[k].pointer == pointer && Observed(redeemers, pointer, data)
    ensures redeemers[k].data == Some(data)
  {
    var m :| 0 <= m < |redeemers| && redeemers[m].pointer == pointer && redeemers[m].data == Some(data);
    assert Pointers(redeemers)[m] == Pointers(redeemers)[k];
  }

  lemma NeededByPlan(plan: Plan, inputs: seq<OutRef>, policies: seq<Hex>, resolved: Evidence)
    requires PlannedRequirements(Some(plan), inputs, policies, resolved).Ok?
    ensures forall hash :: hash in PlannedRequirements(Some(plan), inputs, policies, resolved).value.scripts
                      <==> IsNeeded(plan, |plan.inputs|, |plan.mint|, resolved, hash)
  {
    hide RequireSpends, RequireMints, IsNeeded;
    var spends := RequireSpends(plan, |plan.inputs|, inputs, resolved).value;
    RequiredSpendsArePlaced(plan, |plan.inputs|, inputs, resolved);
    RequiredMintsAreNeeded(spends, plan, |plan.mint|, policies, resolved);
  }

  lemma NamedProgram(refs: BodyRefs, auth: WalletAuthorization, hash: Hex)
    requires IsVouchedFor(auth)
    ensures (exists id :: id in refs.references && id in ListsOf(auth).references && ListsOf(auth).references[id].script == Some(hash))
       <==> exists id, e :: id in refs.references && Names(auth.allowedReferences, id, e) && e.script == Some(hash)
  {
    hide EvidenceMap, AreVouched, Names;
    var references := ListsOf(auth).references;
    if id :| id in refs.references && id in references && references[id].script == Some(hash) {
      NamedIsMapped(auth.allowedReferences, auth.networkId, false, id, references[id]);
    }
    if id, e :| id in refs.references && Names(auth.allowedReferences, id, e) && e.script == Some(hash) {
      NamedIsMapped(auth.allowedReferences, auth.networkId, false, id, e);
    }
  }

  lemma AvailableMeans(tx: Candidate, refs: BodyRefs, auth: WalletAuthorization, needed: set<Hex>)
    requires IsVouchedFor(auth)
    ensures ScriptsAvailable(tx.witnesses.scripts, needed, ListsOf(auth).references, refs.references) <==>
      && (forall hash <- tx.witnesses.scripts :: hash in needed)
      && forall hash <- needed :: hash in tx.witnesses.scripts
           || exists id, e :: id in refs.references && Names(auth.allowedReferences, id, e) && e.script == Some(hash)
  {
    hide ListsOf, Names, IsVouchedFor;
    forall hash
      ensures (exists id :: id in refs.references && id in ListsOf(auth).references && ListsOf(auth).references[id].script == Some(hash))
        <==> exists id, e :: id in refs.references && Names(auth.allowedReferences, id, e) && e.script == Some(hash)
    {
      NamedProgram(refs, auth, hash);
    }
  }

  lemma SpendPointersOnly(plan: Plan, inputs: seq<OutRef>, resolved: Evidence)
    requires RequireSpends(plan, |plan.inputs|, inputs, resolved).Ok?
    requires Distinct(InputRefs(plan.inputs)) && forall id <- InputRefs(plan.inputs) :: id in inputs
    ensures forall pointer <- RequireSpends(plan, |plan.inputs|, inputs, resolved).value.expected :: pointer.tag == SpendTag
  {
    hide SpendPointer, RequireSpends, RefId;
    RequiredSpendsMean(plan, |plan.inputs|, inputs, resolved);
  }

  lemma RequirementsExist(plan: Plan, inputs: seq<OutRef>, policies: seq<Hex>, resolved: Evidence)
    requires Distinct(InputRefs(plan.inputs)) && forall id <- InputRefs(plan.inputs) :: id in inputs
    ensures PlannedRequirements(Some(plan), inputs, policies, resolved).Ok? <==>
      (forall i :: 0 <= i < |plan.inputs| ==> SpendIsPlaced(plan, i, resolved)) && MintsApart(plan, |plan.mint|, policies)
  {
    hide RequireSpends, RequireMints, SpendIsPlaced, MintsApart, RefId;
    SpendsArePlaced(plan, |plan.inputs|, inputs, resolved);
    var spends := RequireSpends(plan, |plan.inputs|, inputs, resolved);
    if spends.Ok? {
      SpendPointersOnly(plan, inputs, resolved);
      MintsAreApart(spends.value, plan, |plan.mint|, policies);
    }
  }

  lemma PlanExecution(tx: Candidate, refs: BodyRefs, plan: Plan, auth: WalletAuthorization, resolved: Evidence)
    requires IsVouchedFor(auth) && Distinct(InputRefs(plan.inputs)) && forall id <- InputRefs(plan.inputs) :: id in refs.inputs
    ensures WitnessesFit(tx.witnesses, Some(plan), refs.inputs, MintPolicies(tx.body.mint), resolved, ListsOf(auth).references, refs.references)
       <==> ExecutionAuthorized(tx, refs, Some(plan), auth, resolved)
  {
    hide PlannedRequirements, ExactlyExpected, ScriptsAvailable, ExecutesPlan, MintsApart, SpendIsPlaced, IsNeeded, MintPolicies, ListsOf,
      IsVouchedFor, Names, RefId;
    var policies := MintPolicies(tx.body.mint);
    RequirementsExist(plan, refs.inputs, policies, resolved);
    if PlannedRequirements(Some(plan), refs.inputs, policies, resolved).Ok? {
      var required := PlannedRequirements(Some(plan), refs.inputs, policies, resolved).value;
      NeededByPlan(plan, refs.inputs, policies, resolved);
      AvailableMeans(tx, refs, auth, required.scripts);
      if ExactlyExpected(tx.witnesses.redeemers, required.expected) {
        ExecutionIsPlanned(plan, refs.inputs, policies, resolved, tx.witnesses.redeemers);
      }
      if ExecutesPlan(plan, refs.inputs, policies, tx.witnesses.redeemers) {
        PlannedIsExpected(plan, refs.inputs, policies, resolved, tx.witnesses.redeemers);
      }
    }
  }

  lemma NoExecution(tx: Candidate, refs: BodyRefs, auth: WalletAuthorization, resolved: Evidence)
    requires IsVouchedFor(auth)
    ensures WitnessesFit(tx.witnesses, None, refs.inputs, MintPolicies(tx.body.mint), resolved, ListsOf(auth).references, refs.references)
       <==> ExecutionAuthorized(tx, refs, None, auth, resolved)
  {
    hide ListsOf, MintPolicies, IsVouchedFor;
    if tx.witnesses.redeemers != [] {
      var nothing: map<Pointer, Redeemer> := map[];
      assert tx.witnesses.redeemers[0].pointer !in nothing;
    }
    if tx.witnesses.scripts != [] {
      assert tx.witnesses.scripts[0] in tx.witnesses.scripts;
    }
  }

  /** The wallet's whole policy, over the candidate and the authorization. */
  ghost predicate Approvable(tx: Candidate, plan: Option<Plan>, auth: WalletAuthorization) {
    && IsHeaded(tx, plan, auth) && IsVouchedFor(auth)
    && IsRefList(tx.body.inputs) && IsRefList(tx.body.references) && IsRefList(tx.body.collateral)
    && ReadBodyRefs(tx.body).Ok?
    && var refs := ReadBodyRefs(tx.body).value;
       var spendable := ListsOf(auth).Spendable();
       && RefsAreRead(tx.body, refs) && SpendsAuthorized(refs, plan, auth) && CollateralVouched(refs, plan, auth)
       && MintsPlanned(tx.body.mint, if plan == None then [] else plan.value.mint)
       && SignersRespected(tx.body, plan, auth, set key | key in tx.body.requiredSigners)
       && ExecutionAuthorized(tx, refs, plan, auth, ResolvedOf(refs.inputs, spendable))
       && OutputsAuthorized(tx.body, plan, auth)
       && (forall a :: RefsSum(refs.inputs, spendable, a) + Amount(MintedValue(tx.body.mint), a)
             == AmountSum(tx.body.outputs, a) + if a == Ada then tx.body.fee else 0)
       && CollateralBounded(tx.body, refs.collateral, auth)
  }

  lemma ConservesMeans(spent: Asset -> int, mint: Value, outputs: seq<WalletOutput>, fee: int)
    ensures Conserves(spent, mint, outputs, fee) <==>
      forall a :: spent(a) + Amount(mint, a) == AmountSum(outputs, a) + if a == Ada then fee else 0
  {
    hide Amount, AmountSum;
  }

  lemma HeadedIsPayable(tx: Candidate, plan: Option<Plan>, auth: WalletAuthorization)
    requires IsHeaded(tx, plan, auth)
    ensures IsPayable(auth.change.address, auth.networkId)
  {
    hide IntervalRespected, UsesApart, MakesSound, Lower;
  }

  lemma PlanIsSpent(tx: Candidate, refs: BodyRefs, plan: Plan, auth: WalletAuthorization)
    requires IsHeaded(tx, Some(plan), auth) && SpendsAuthorized(refs, Some(plan), auth)
    ensures Distinct(InputRefs(plan.inputs)) && forall id <- InputRefs(plan.inputs) :: id in refs.inputs
  {
    hide IntervalRespected, HeaderRespected, MakesSound, RefId, HasItsAction, Names;
    InputsApart(plan.inputs);
    forall id <- InputRefs(plan.inputs) ensures id in refs.inputs {
      assert Planned(Some(plan), id);
    }
  }

  lemma ExecutionMeans(tx: Candidate, refs: BodyRefs, plan: Option<Plan>, auth: WalletAuthorization, resolved: Evidence)
    requires IsHeaded(tx, plan, auth) && IsVouchedFor(auth) && SpendsAuthorized(refs, plan, auth)
    ensures WitnessesFit(tx.witnesses, plan, refs.inputs, MintPolicies(tx.body.mint), resolved, ListsOf(auth).references, refs.references)
       <==> ExecutionAuthorized(tx, refs, plan, auth, resolved)
  {
    hide IsHeaded, IsVouchedFor, SpendsAuthorized, WitnessesFit, ExecutionAuthorized, InputRefs;
    match plan
    case None => NoExecution(tx, refs, auth, resolved);
    case Some(p) =>
      PlanIsSpent(tx, refs, p, auth);
      PlanExecution(tx, refs, p, auth, resolved);
  }

  /** Review accepts a candidate exactly when it meets the policy: nothing more is asked, and nothing less is taken. */
  lemma ReviewIsExact(tx: Candidate, plan: Option<Plan>, auth: WalletAuthorization)
    ensures Acceptable(tx, plan, auth) <==> Approvable(tx, plan, auth)
  {
    hide HeaderFits, IsHeaded, EvidenceFits, IsVouchedFor, InputsAcceptable, SpendsAuthorized, CollateralEvidenceFits, CollateralVouched,
      MintFits, MintsPlanned, SignersFit, SignersRespected, WitnessesFit, ExecutionAuthorized, OutputsAcceptable, OutputsAuthorized,
      Conserves, CollateralAcceptable, CollateralBounded, IsRefList, RefsAreRead, ReadBodyRefs, ResolvedOf, RefsSum, AmountSum, Amount,
      MintPolicies, MintedValue, IsPayable, EvidenceMap;
    HeaderMeans(tx, plan, auth);
    EvidenceMeans(auth);
    BodyRefsMean(tx.body);
    MintMeans(tx.body.mint, PlannedMints(plan));
    SignersMean(tx.body, plan, auth);
    if IsHeaded(tx, plan, auth) && IsVouchedFor(auth) && ReadBodyRefs(tx.body).Ok? {
      var refs := ReadBodyRefs(tx.body).value;
      HeadedIsPayable(tx, plan, auth);
      SpendsAuthorizedMeans(refs, plan, auth);
      OutputsAuthorizedMean(tx.body, plan, auth);
      ConservesMeans(SpentOf(refs, auth), MintedValue(tx.body.mint), tx.body.outputs, tx.body.fee);
      if SpendsAuthorized(refs, plan, auth) {
        CollateralVouchedMeans(refs, plan, auth);
        ExecutionMeans(tx, refs, plan, auth, ResolvedOf(refs.inputs, ListsOf(auth).Spendable()));
        if CollateralVouched(refs, plan, auth) {
          CollateralIsAllowed(refs, plan, auth);
          CollateralMeans(tx.body, refs.collateral, auth);
        }
      }
    }
  }

  lemma CollateralIsAllowed(refs: BodyRefs, plan: Option<Plan>, auth: WalletAuthorization)
    requires IsVouchedFor(auth) && CollateralVouched(refs, plan, auth)
    ensures forall id <- refs.collateral :: id in EvidenceMap(auth.allowedCollateral)
  {
    hide AreVouched, Names, EvidenceMap, Resolves, Amount;
    forall id <- refs.collateral ensures id in EvidenceMap(auth.allowedCollateral) {
      var c :| Names(auth.allowedCollateral, id, c);
      NamedIsMapped(auth.allowedCollateral, auth.networkId, true, id, c);
    }
  }

  /** An input that the candidate spends or puts up as collateral, with the evidence it is resolved by. */
  predicate IsTaken(refs: BodyRefs, plan: Option<Plan>, auth: WalletAuthorization, id: OutRef, e: ResolvedInput) {
    || (id in refs.inputs && Resolves(auth, plan, id, e))
    || (id in refs.collateral && Names(auth.allowedCollateral, id, e))
  }

  lemma SpendKeysMean(refs: BodyRefs, plan: Option<Plan>, auth: WalletAuthorization, key: Hex)
    requires IsVouchedFor(auth) && SpendsAuthorized(refs, plan, auth)
    ensures key in KeysOf(refs.inputs, ListsOf(auth).Spendable()) <==>
      exists id, e :: id in refs.inputs && Resolves(auth, plan, id, e) && e.address.payment == Some(Credential(Key, key))
  {
    hide SpendsAuthorized, AreVouched, Names, Resolves, ListsOf, IsVouchedFor;
    var spendable := ListsOf(auth).Spendable();
    forall id, e | id in refs.inputs ensures id in spendable && spendable[id] == e <==> Resolves(auth, plan, id, e) {
      ResolvedMeans(refs, plan, auth, id, e);
    }
    KeysAreHeld(refs.inputs, spendable, key);
  }

  lemma KeysAreHeld(refs: seq<OutRef>, m: Evidence, key: Hex)
    ensures key in KeysOf(refs, m) <==> exists id :: id in refs && id in m && m[id].address.payment == Some(Credential(Key, key))
  {
    if key in KeysOf(refs, m) {
      var i :| 0 <= i < |refs| && refs[i] in m && KeyOf(m[refs[i]].address) == Some(key);
      assert refs[i] in refs;
    }
    if id :| id in refs && id in m && m[id].address.payment == Some(Credential(Key, key)) {
      var i :| 0 <= i < |refs| && refs[i] == id;
      assert KeyOf(m[refs[i]].address) == Some(key);
    }
  }

  /** Whoever must sign is a payment key of a spend or of the collateral, or is named in the signer field; and nobody else. */
  lemma WitnessKeysMean(body: CandidateBody, refs: BodyRefs, plan: Option<Plan>, auth: WalletAuthorization, key: Hex)
    requires IsVouchedFor(auth) && SpendsAuthorized(refs, plan, auth)
    ensures key in RequiredKeys(body, refs, auth) <==>
      || key in body.requiredSigners
      || exists id, e :: IsTaken(refs, plan, auth, id, e) && e.address.payment == Some(Credential(Key, key))
  {
    hide SpendsAuthorized, AreVouched, Names, Resolves, ListsOf, KeysOf, EvidenceMap, IsVouchedFor;
    SpendKeysMean(refs, plan, auth, key);
    KeysAreHeld(refs.collateral, EvidenceMap(auth.allowedCollateral), key);
    CollateralIsNamed(auth);
    if key in KeysOf(refs.collateral, EvidenceMap(auth.allowedCollateral)) {
      var id :| id in refs.collateral && id in EvidenceMap(auth.allowedCollateral)
        && EvidenceMap(auth.allowedCollateral)[id].address.payment == Some(Credential(Key, key));
      assert IsTaken(refs, plan, auth, id, EvidenceMap(auth.allowedCollateral)[id]);
    }
    if key in KeysOf(refs.inputs, ListsOf(auth).Spendable()) {
      var id, e :| id in refs.inputs && Resolves(auth, plan, id, e) && e.address.payment == Some(Credential(Key, key));
      assert IsTaken(refs, plan, auth, id, e);
    }
  }

  lemma CollateralIsNamed(auth: WalletAuthorization)
    requires IsVouchedFor(auth)
    ensures forall id, e :: Names(auth.allowedCollateral, id, e) <==>
      id in EvidenceMap(auth.allowedCollateral) && EvidenceMap(auth.allowedCollateral)[id] == e
  {
    hide AreVouched, Names, EvidenceMap;
    forall id, e ensures Names(auth.allowedCollateral, id, e) <==>
      id in EvidenceMap(auth.allowedCollateral) && EvidenceMap(auth.allowedCollateral)[id] == e
    {
      NamedIsMapped(auth.allowedCollateral, auth.networkId, true, id, e);
    }
  }
}
