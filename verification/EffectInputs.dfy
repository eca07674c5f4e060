/** Input review: allowlisted evidence, the wallet's spends, and the collateral failure path. */
module EffectInputs {
  import opened Results
  import opened Types
  import opened Values
  import opened References
  import opened Planning
  import opened AcceptedTransactions
  import opened EffectsLedger
  import opened EffectOutputs
  import opened Sums

  /** Address and value evidence of a referenced output, obtained apart from the candidate. */
  datatype ResolvedInput = ResolvedInput(ref: OutRef, address: LedgerAddress, value: Value, script: Option<Hex>)

  type Evidence = map<OutRef, ResolvedInput>

  function EvidenceRef(input: ResolvedInput): OutRef {
    input.ref
  }

  predicate IsEvidence(input: ResolvedInput, networkId: int, keyOnly: bool) {
    && IsReference(input.ref) && IsPaymentAddress(input.address, networkId)
    && (keyOnly ==> KeyOf(input.address).Some?)
    && IsLedgerValue(input.value) && forall a <- input.value :: 0 <= input.value[a]
  }

  predicate IsEvidenceList(values: seq<ResolvedInput>, networkId: int, keyOnly: bool) {
    && Distinct(Ids(values, EvidenceRef))
    && forall i :: 0 <= i < |values| ==> IsEvidence(values[i], networkId, keyOnly)
  }

  function EvidenceMap(values: seq<ResolvedInput>): Evidence {
    if values == [] then map[]
    else EvidenceMap(values[..|values| - 1])[RefId(values[|values| - 1].ref) := values[|values| - 1]]
  }

  lemma {:induction false} EvidenceMapMeans(values: seq<ResolvedInput>)
    ensures forall id :: id in EvidenceMap(values) <==> exists i :: 0 <= i < |values| && RefId(values[i].ref) == id
    ensures forall id <- EvidenceMap(values) :: EvidenceMap(values)[id] in values && RefId(EvidenceMap(values)[id].ref) == id
  {
    hide RefId;
    if values != [] {
      var last := |values| - 1;
      EvidenceMapMeans(values[..last]);
      forall id ensures id in EvidenceMap(values) <==> exists i :: 0 <= i < |values| && RefId(values[i].ref) == id {
        if id in EvidenceMap(values[..last]) {
          var i :| 0 <= i < last && RefId(values[..last][i].ref) == id;
          assert values[i] == values[..last][i];
        }
        if i :| 0 <= i < last && RefId(values[i].ref) == id {
          assert values[i] == values[..last][i];
        }
      }
    }
  }

  /** Index one authorization category, rejecting duplicates, foreign addresses and negative custody. */
  method IndexEvidence(values: seq<ResolvedInput>, networkId: int, keyOnly: bool) returns (r: Result<Evidence>)
    ensures r.Ok? <==> IsEvidenceList(values, networkId, keyOnly)
    ensures r.Ok? ==> r.value == EvidenceMap(values)
  {
    hide IsEvidence, RefId;
    var result: Evidence := map[];
    ghost var ids := Ids(values, EvidenceRef);
    for i := 0 to |values|
      invariant result == EvidenceMap(values[..i])
      invariant forall k :: 0 <= k < i ==> IsEvidence(values[k], networkId, keyOnly)
      invariant forall j, k :: 0 <= j < k < i ==> ids[j] != ids[k]
    {
      var value := values[i];
      var id := RefId(value.ref);
      EvidenceMapMeans(values[..i]);
      if id in result {
        var k :| 0 <= k < i && RefId(values[..i][k].ref) == id;
        assert ids[k] == ids[i];
        return Err(DuplicateReference);
      }
      if !IsEvidence(value, networkId, keyOnly) {
        return Err(Unauthorized);
      }
      forall j | 0 <= j < i ensures ids[j] != ids[i] {
        assert values[..i][j] == values[j];
      }
      assert values[..i + 1][..i] == values[..i];
      result := result[id := value];
    }
    assert values[..|values|] == values;
    return Ok(result);
  }

  /** The canonical references of an input list without duplicates. */
  function ReadRefs(list: seq<OutRef>): (r: Result<seq<OutRef>>)
    ensures r.Ok? ==> Distinct(r.value) && |r.value| == |list|
  {
    var ids := Ids(list, Itself);
    if (forall i :: 0 <= i < |list| ==> IsReference(list[i])) && Distinct(ids) then Ok(ids) else Err(DuplicateReference)
  }

  function AmountAt(m: Evidence, a: Asset): OutRef -> int {
    id => if id in m then Amount(m[id].value, a) else 0
  }

  /** What evidence attributes to a list of references. */
  function RefsSum(refs: seq<OutRef>, m: Evidence, a: Asset): int {
    if refs == [] then 0 else RefsSum(refs[..|refs| - 1], m, a) + AmountAt(m, a)(refs[|refs| - 1])
  }

  function EvidenceSum(values: seq<ResolvedInput>, a: Asset): int {
    if values == [] then 0 else EvidenceSum(values[..|values| - 1], a) + Amount(values[|values| - 1].value, a)
  }

  function SetOf(refs: seq<OutRef>): set<OutRef> {
    set id | id in refs
  }

  lemma {:induction false} RefsSumIsSetSum(refs: seq<OutRef>, m: Evidence, a: Asset)
    requires Distinct(refs)
    ensures RefsSum(refs, m, a) == Sum(SetOf(refs), AmountAt(m, a))
  {
    hide AmountAt;
    if refs != [] {
      var last := |refs| - 1;
      RefsSumIsSetSum(refs[..last], m, a);
      assert refs[last] !in refs[..last];
      assert SetOf(refs) - {refs[last]} == SetOf(refs[..last]);
      SumRemove(SetOf(refs), refs[last], AmountAt(m, a));
    }
  }

  lemma {:induction false} EvidenceSumIsSetSum(values: seq<ResolvedInput>, a: Asset)
    requires Distinct(Ids(values, EvidenceRef))
    ensures EvidenceSum(values, a) == Sum(EvidenceMap(values).Keys, AmountAt(EvidenceMap(values), a))
  {
    hide RefId, Amount;
    if values != [] {
      var last := |values| - 1;
      var m, n := EvidenceMap(values), EvidenceMap(values[..last]);
      var id := RefId(values[last].ref);
      assert Ids(values[..last], EvidenceRef) == Ids(values, EvidenceRef)[..last];
      EvidenceSumIsSetSum(values[..last], a);
      EvidenceMapMeans(values[..last]);
      forall i | 0 <= i < last ensures RefId(values[..last][i].ref) != id {
        assert Ids(values, EvidenceRef)[i] != Ids(values, EvidenceRef)[last];
      }
      assert m.Keys - {id} == n.Keys;
      SumRemove(m.Keys, id, AmountAt(m, a));
      SumSame(n.Keys, AmountAt(m, a), AmountAt(n, a));
    }
  }

  /** The four authorization categories of a wallet. */
  datatype Allowlists = Allowlists(sources: Evidence, funding: Evidence, collateral: Evidence, references: Evidence) {
    /** Planned evidence takes precedence over funding. */
    function Spendable(): Evidence {
      funding + sources
    }
  }

  /** The observed references of a candidate body. */
  datatype BodyRefs = BodyRefs(inputs: seq<OutRef>, references: seq<OutRef>, collateral: seq<OutRef>)

  function PlannedIds(plan: Option<Plan>): set<OutRef> {
    if plan.None? then {} else SetOf(InputRefs(plan.value.inputs))
  }

  function PlannedReferences(plan: Option<Plan>): seq<OutRef> {
    if plan.None? then [] else Ids(plan.value.referenceInputs, Itself)
  }

  /** Spends are exactly the plan's plus allowlisted funding; references are allowlisted, planned ones present, disjoint. */
  predicate InputsAcceptable(refs: BodyRefs, plan: Option<Plan>, lists: Allowlists) {
    && lists.sources.Keys == PlannedIds(plan)
    && (forall id <- PlannedIds(plan) :: id in refs.inputs)
    && (forall id <- refs.references :: id in lists.references && id !in refs.inputs && id !in refs.collateral)
    && (forall id <- PlannedReferences(plan) :: id in refs.references)
    && (forall id <- refs.inputs :: id in lists.Spendable())
  }

  datatype Resolution = Resolution(resolved: Evidence, requiredKeys: set<Hex>, selectedFunding: seq<OutRef>)

  function ResolvedOf(refs: seq<OutRef>, m: Evidence): Evidence {
    map id | id in refs && id in m :: m[id]
  }

  /** The references outside the plan, in body order. */
  function Unplanned(refs: seq<OutRef>, wanted: set<OutRef>): seq<OutRef> {
    if refs == [] then []
    else
      var last := |refs| - 1;
      Unplanned(refs[..last], wanted) + if refs[last] in wanted then [] else [refs[last]]
  }

  /** The payment keys of the resolved references. */
  ghost predicate AreKeysOf(keys: set<Hex>, refs: seq<OutRef>, m: Evidence) {
    && (forall id <- refs :: id in m && KeyOf(m[id].address).Some? ==> KeyOf(m[id].address).value in keys)
    && (forall key <- keys :: exists id :: id in refs && id in m && KeyOf(m[id].address) == Some(key))
  }

  /** The payment keys that hold a list of resolved references. */
  function KeysOf(refs: seq<OutRef>, m: Evidence): set<Hex> {
    set i | 0 <= i < |refs| && refs[i] in m && KeyOf(m[refs[i]].address).Some? :: KeyOf(m[refs[i]].address).value
  }

  lemma KeysAppend(refs: seq<OutRef>, id: OutRef, m: Evidence)
    requires id in m && KeyOf(m[id].address).Some?
    ensures KeysOf(refs + [id], m) == KeysOf(refs, m) + {KeyOf(m[id].address).value}
  {
    forall key <- KeysOf(refs, m) + {KeyOf(m[id].address).value} ensures key in KeysOf(refs + [id], m) {
      if key in KeysOf(refs, m) {
        var i :| 0 <= i < |refs| && refs[i] in m && KeyOf(m[refs[i]].address) == Some(key);
        assert (refs + [id])[i] == refs[i];
      } else {
        assert (refs + [id])[|refs|] == id;
      }
    }
  }

  lemma KeysAreExact(keys: set<Hex>, refs: seq<OutRef>, m: Evidence)
    requires AreKeysOf(keys, refs, m)
    ensures keys == KeysOf(refs, m)
  {
    forall key <- keys ensures key in KeysOf(refs, m) {
      var id :| id in refs && id in m && KeyOf(m[id].address) == Some(key);
      var i :| 0 <= i < |refs| && refs[i] == id;
      assert KeyOf(m[refs[i]].address).value in KeysOf(refs, m);
    }
  }

  /** What a list of resolved references amounts to: their evidence, keys, funding part and total value. */
  ghost predicate ResolvedFrom(refs: seq<OutRef>, m: Evidence, wanted: set<OutRef>, r: Resolution, amounts: Value) {
    && r.resolved == ResolvedOf(refs, m)
    && r.selectedFunding == Unplanned(refs, wanted)
    && AreKeysOf(r.requiredKeys, refs, m)
    && forall a :: Qty(amounts, a) == RefsSum(refs, m, a)
  }

  function AddKey(keys: set<Hex>, address: LedgerAddress): set<Hex> {
    if KeyOf(address).Some? then keys + {KeyOf(address).value} else keys
  }

  lemma ResolveStep(
    refs: seq<OutRef>, id: OutRef, m: Evidence, wanted: set<OutRef>, r: Resolution, amounts: Value, next: Value)
    requires ResolvedFrom(refs, m, wanted, r, amounts) && id in m
    requires forall a :: Qty(next, a) == Qty(amounts, a) + 1 * Amount(m[id].value, a)
    ensures ResolvedFrom(refs + [id], m, wanted,
      Resolution(r.resolved[id := m[id]], AddKey(r.requiredKeys, m[id].address),
                 if id in wanted then r.selectedFunding else r.selectedFunding + [id]), next)
  {
    hide Amount, AreKeysOf, AddKey, RefsSum, ResolvedOf, Unplanned;
    KeysStep(r.requiredKeys, refs, m, id);
    ListsStep(refs, m, wanted, id);
    forall a ensures Qty(next, a) == RefsSum(refs + [id], m, a) {
      RefsSumAppend(refs, id, m, a);
    }
  }

  lemma ListsStep(refs: seq<OutRef>, m: Evidence, wanted: set<OutRef>, id: OutRef)
    requires id in m
    ensures ResolvedOf(refs + [id], m) == ResolvedOf(refs, m)[id := m[id]]
    ensures id in wanted ==> Unplanned(refs + [id], wanted) == Unplanned(refs, wanted)
    ensures id !in wanted ==> Unplanned(refs + [id], wanted) == Unplanned(refs, wanted) + [id]
  {
    assert (refs + [id])[..|refs|] == refs;
  }

  lemma RefsSumAppend(refs: seq<OutRef>, id: OutRef, m: Evidence, a: Asset)
    ensures RefsSum(refs + [id], m, a) == RefsSum(refs, m, a) + AmountAt(m, a)(id)
  {
    hide AmountAt;
    assert (refs + [id])[..|refs|] == refs;
  }

  lemma KeysStep(keys: set<Hex>, refs: seq<OutRef>, m: Evidence, id: OutRef)
    requires AreKeysOf(keys, refs, m) && id in m
    ensures AreKeysOf(AddKey(keys, m[id].address), refs + [id], m)
  {
    var after := AddKey(keys, m[id].address);
    forall key <- after ensures exists k :: k in refs + [id] && k in m && KeyOf(m[k].address) == Some(key) {
      if key in keys {
        var k :| k in refs && k in m && KeyOf(m[k].address) == Some(key);
        assert k in refs + [id];
      } else {
        assert id in refs + [id];
      }
    }
  }

  lemma NothingResolved(m: Evidence, wanted: set<OutRef>)
    ensures ResolvedFrom([], m, wanted, Resolution(map[], {}, []), map[])
  {
  }

  method ResolveAuthorizedInputs(refs: BodyRefs, plan: Option<Plan>, lists: Allowlists, sum: Balance)
    returns (r: Result<Resolution>)
    requires sum.amounts == map[]
    requires forall id <- lists.Spendable() :: IsLedgerValue(lists.Spendable()[id].value)
    modifies sum
    ensures CanonicalKeys(sum.amounts)
    ensures r.Ok? <==> InputsAcceptable(refs, plan, lists)
    ensures r.Ok? ==> ResolvedFrom(refs.inputs, lists.Spendable(), PlannedIds(plan), r.value, sum.amounts)
  {
    hide Amount, PlannedIds, PlannedReferences, ResolvedFrom, IsLedgerValue, CanonicalKeys;
    var wanted := PlannedIds(plan);
    var spendable := lists.Spendable();
    assert CanonicalKeys(sum.amounts) by {
      EmptyIsCanonical();
    }
    if lists.sources.Keys != wanted || (exists id :: id in wanted && id !in refs.inputs) {
      return Err(MissingLineage);
    }
    if exists id :: id in refs.references && (id !in lists.references || id in refs.inputs || id in refs.collateral) {
      return Err(Unauthorized);
    }
    if exists id :: id in PlannedReferences(plan) && id !in refs.references {
      return Err(MissingLineage);
    }
    var resolved: Evidence, keys: set<Hex>, selectedFunding := map[], {}, [];
    NothingResolved(spendable, wanted);
    for i := 0 to |refs.inputs|
      invariant CanonicalKeys(sum.amounts)
      invariant forall k :: 0 <= k < i ==> refs.inputs[k] in spendable
      invariant ResolvedFrom(refs.inputs[..i], spendable, wanted, Resolution(resolved, keys, selectedFunding), sum.amounts)
    {
      var id := refs.inputs[i];
      if id !in spendable {
        return Err(Unauthorized);
      }
      var input := spendable[id];
      ghost var before, r0 := sum.amounts, Resolution(resolved, keys, selectedFunding);
      if id !in wanted {
        selectedFunding := selectedFunding + [id];
      }
      resolved := resolved[id := input];
      var _ := sum.Add(input.value, 1);
      keys := AddKey(keys, input.address);
      ResolveStep(refs.inputs[..i], id, spendable, wanted, r0, before, sum.amounts);
      assert refs.inputs[..i + 1] == refs.inputs[..i] + [id];
    }
    assert refs.inputs[..|refs.inputs|] == refs.inputs;
    return Ok(Resolution(resolved, keys, selectedFunding));
  }

  lemma EmptyIsCanonical()
    ensures CanonicalKeys(map[])
  {
  }

  lemma {:induction false} UnplannedMeans(refs: seq<OutRef>, wanted: set<OutRef>)
    requires Distinct(refs)
    ensures Distinct(Unplanned(refs, wanted)) && SetOf(Unplanned(refs, wanted)) == SetOf(refs) - wanted
  {
    if refs != [] {
      var last := |refs| - 1;
      UnplannedMeans(refs[..last], wanted);
      var earlier := Unplanned(refs[..last], wanted);
      assert refs[last] !in refs[..last];
      assert SetOf(refs) == SetOf(refs[..last]) + {refs[last]};
      assert refs[last] !in earlier by {
        assert refs[last] !in SetOf(earlier);
      }
      assert SetOf(earlier + [refs[last]]) == SetOf(earlier) + {refs[last]};
    }
  }

  /** The wallet's spends are exactly its selected funding on top of the plan's own evidence. */
  lemma SpendsSplit(refs: BodyRefs, plan: Option<Plan>, lists: Allowlists, planInputs: seq<ResolvedInput>, a: Asset)
    requires InputsAcceptable(refs, plan, lists) && Distinct(refs.inputs)
    requires Distinct(Ids(planInputs, EvidenceRef)) && lists.sources == EvidenceMap(planInputs)
    ensures RefsSum(refs.inputs, lists.Spendable(), a)
         == EvidenceSum(planInputs, a) + RefsSum(Unplanned(refs.inputs, PlannedIds(plan)), lists.funding, a)
  {
    hide Amount, PlannedIds, PlannedReferences;
    var wanted, m := PlannedIds(plan), lists.Spendable();
    var funding := Unplanned(refs.inputs, wanted);
    var all := SetOf(refs.inputs);
    UnplannedMeans(refs.inputs, wanted);
    RefsSumIsSetSum(refs.inputs, m, a);
    RefsSumIsSetSum(funding, lists.funding, a);
    EvidenceSumIsSetSum(planInputs, a);
    assert wanted <= all;
    SumSplit(all, wanted, AmountAt(m, a));
    SumSame(wanted, AmountAt(m, a), AmountAt(lists.sources, a));
    SumSame(all - wanted, AmountAt(m, a), AmountAt(lists.funding, a));
  }

  /** Collateral is allowlisted and key-held, and agrees with any overlapping spend. */
  predicate CollateralEvidenceFits(refs: seq<OutRef>, allowed: Evidence, resolved: Evidence) {
    forall i :: 0 <= i < |refs| ==>
      && refs[i] in allowed && KeyOf(allowed[refs[i]].address).Some?
      && (refs[i] in resolved ==>
            && SameValue(resolved[refs[i]].value, allowed[refs[i]].value) == Ok(true)
            && resolved[refs[i]].address == allowed[refs[i]].address)
  }

  method VerifyCollateralEvidence(refs: seq<OutRef>, allowed: Evidence, resolved: Evidence, requiredKeys: set<Hex>)
    returns (r: Result<set<Hex>>)
    ensures r.Ok? <==> CollateralEvidenceFits(refs, allowed, resolved)
    ensures r.Ok? ==> r.value == requiredKeys + KeysOf(refs, allowed)
  {
    hide SameValue;
    var keys := requiredKeys;
    for i := 0 to |refs|
      invariant CollateralEvidenceFits(refs[..i], allowed, resolved)
      invariant keys == requiredKeys + KeysOf(refs[..i], allowed)
    {
      var id := refs[i];
      if id !in allowed || KeyOf(allowed[id].address).None? {
        return Err(Unauthorized);
      }
      if id in resolved && (SameValue(resolved[id].value, allowed[id].value) != Ok(true) || resolved[id].address != allowed[id].address) {
        return Err(BindingMismatch);
      }
      KeysAppend(refs[..i], id, allowed);
      assert refs[..i + 1] == refs[..i] + [id];
      keys := keys + {KeyOf(allowed[id].address).value};
    }
    assert refs[..|refs|] == refs;
    return Ok(keys);
  }

  function ReturnedAmount(returned: Option<WalletOutput>, a: Asset): int {
    if returned.None? then 0 else Amount(returned.value.value, a)
  }

  /** What the failure path can cost: selected collateral less its return. */
  function Exposure(refs: seq<OutRef>, allowed: Evidence, returned: Option<WalletOutput>, a: Asset): int {
    RefsSum(refs, allowed, a) - ReturnedAmount(returned, a)
  }

  /** Only bounded ADA is exposed, the return is authorized change, and any stated total agrees. */
  ghost predicate CollateralAcceptable(
    refs: seq<OutRef>, allowed: Evidence, returned: Option<WalletOutput>, total: Option<int>, change: ChangePolicy,
    maxExposure: int, networkId: int)
  {
    && (forall id <- refs :: id in allowed)
    && (returned.Some? ==> OutputId(returned.value, networkId).Some? && IsChange(returned.value, change, networkId))
    && (forall a: Asset :: a.Native? ==> Exposure(refs, allowed, returned, a) == 0)
    && 0 <= Exposure(refs, allowed, returned, Ada) <= maxExposure
    && (if refs == [] then returned.None? && total.None?
        else returned.Some? || total.Some? ==> total == Some(Exposure(refs, allowed, returned, Ada)))
  }

  /** Add up the selected collateral. */
  method SumCollateral(refs: seq<OutRef>, allowed: Evidence) returns (sum: Balance, known: bool)
    requires forall id <- allowed :: IsLedgerValue(allowed[id].value)
    ensures fresh(sum) && CanonicalKeys(sum.amounts)
    ensures known <==> forall id <- refs :: id in allowed
    ensures known ==> forall a :: Qty(sum.amounts, a) == RefsSum(refs, allowed, a)
  {
    hide Amount, IsLedgerValue, RefsSum;
    sum := new Balance();
    NoCollateral(allowed);
    for i := 0 to |refs|
      invariant fresh(sum) && CanonicalKeys(sum.amounts)
      invariant forall k :: 0 <= k < i ==> refs[k] in allowed
      invariant forall a :: Qty(sum.amounts, a) == RefsSum(refs[..i], allowed, a)
    {
      if refs[i] !in allowed {
        return sum, false;
      }
      var _ := sum.Add(allowed[refs[i]].value, 1);
      assert refs[..i + 1] == refs[..i] + [refs[i]];
      forall a ensures Qty(sum.amounts, a) == RefsSum(refs[..i + 1], allowed, a) {
        RefsSumAppend(refs[..i], refs[i], allowed, a);
      }
    }
    assert refs[..|refs|] == refs;
    return sum, true;
  }

  /** Every native entry is zero. */
  predicate OnlyAda(amounts: Value) {
    forall a <- amounts :: a != Ada ==> amounts[a] == 0
  }

  lemma OnlyAdaMeans(amounts: Value)
    ensures OnlyAda(amounts) <==> forall a: Asset :: a.Native? ==> Qty(amounts, a) == 0
  {
    if a :| a in amounts && a != Ada && amounts[a] != 0 {
      assert Qty(amounts, a) != 0;
    }
  }

  method VerifyCollateral(
    refs: seq<OutRef>, allowed: Evidence, returned: Option<WalletOutput>, total: Option<int>, change: ChangePolicy,
    maxExposure: int, networkId: int) returns (r: Result<int>)
    requires forall id <- allowed :: IsLedgerValue(allowed[id].value)
    ensures r.Ok? <==> CollateralAcceptable(refs, allowed, returned, total, change, maxExposure, networkId)
    ensures r.Ok? ==> r.value == Exposure(refs, allowed, returned, Ada)
  {
    hide Amount, IsLedgerValue, NormalizedValue, IsChange, RefsSum, CanonicalKeys, OnlyAda;
    var sum, known := SumCollateral(refs, allowed);
    if !known {
      return Err(Unauthorized);
    }
    if returned.Some? {
      if OutputId(returned.value, networkId).None? || !IsChange(returned.value, change, networkId) {
        return Err(Unauthorized);
      }
      var _ := sum.Add(returned.value.value, -1);
    }
    assert forall a :: Qty(sum.amounts, a) == Exposure(refs, allowed, returned, a);
    hide Exposure;
    OnlyAdaMeans(sum.amounts);
    var exposure := Qty(sum.amounts, Ada);
    if !OnlyAda(sum.amounts) {
      return Err(NotConserved);
    }
    if exposure < 0 || maxExposure < exposure {
      return Err(OutOfRange);
    }
    if refs == [] {
      if returned.Some? || total.Some? {
        return Err(InvalidShape);
      }
    } else if (returned.Some? || total.Some?) && total != Some(exposure) {
      return Err(ValueMismatch);
    }
    return Ok(exposure);
  }

  lemma NoCollateral(allowed: Evidence)
    ensures forall a :: RefsSum([], allowed, a) == 0
  {
  }
}
