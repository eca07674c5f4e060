/** Planned script execution against ledger redeemer pointers and available programs. */
module Witnesses {
  import opened Results
  import opened Types
  import opened HexStrings
  import opened References
  import opened Planning
  import opened AcceptedTransactions
  import opened EffectsLedger
  import opened EffectInputs

  datatype PointerTag = SpendTag | MintTag | OtherTag

  datatype Pointer = Pointer(tag: PointerTag, index: int)

  /** An observed redeemer; data that is no action of the protocol carries none. Its budget is reported, not judged. */
  datatype ObservedRedeemer = ObservedRedeemer(pointer: Pointer, data: Option<Redeemer>, memory: nat, steps: nat)

  datatype Requirements = Requirements(expected: map<Pointer, Redeemer>, scripts: set<Hex>)

  /** Position of the first occurrence, or -1. */
  function IndexOf<T(==)>(s: seq<T>, item: T): (i: int)
    ensures i == -1 || (0 <= i < |s| && s[i] == item)
    ensures i == -1 <==> item !in s
  {
    if s == [] then -1
    else if s[0] == item then 0
    else
      var later := IndexOf(s[1..], item);
      if later == -1 then -1 else later + 1
  }

  /** Spend pointers index all inputs of the body in canonical order, funding included. */
  function SpendPointer(inputs: seq<OutRef>, id: OutRef): Pointer {
    Pointer(SpendTag, IndexOf(SortItems(inputs, Itself), id))
  }

  function MintPointer(policies: seq<Hex>, policy: Hex): Pointer {
    Pointer(MintTag, IndexOf(policies, policy))
  }

  function PlannedScript(plan: Plan, role: InputRole): Option<Hex> {
    var script := if role.ClaimInput? then plan.deployment.claimScript else Some(plan.deployment.policy);
    if script.None? then None else Some(Lower(script.value))
  }

  /** A key-controlled seed needs no redeemer; every other planned spend must sit at its planned script. */
  function RequireSpend(q: Requirements, plan: Plan, source: PlanInput, inputs: seq<OutRef>, resolved: Evidence): Result<Requirements> {
    var id := RefId(source.ref);
    :- Need(id in resolved, MissingLineage);
    var address := resolved[id].address;
    if source.redeemer.None? then
      :- Need(KeyOf(address).Some?, Unauthorized);
      Ok(q)
    else
      :- Need(ScriptOf(address).Some? && ScriptOf(address) == PlannedScript(plan, source.role), BindingMismatch);
      Ok(Requirements(
        q.expected[SpendPointer(inputs, id) := source.redeemer.value], q.scripts + {ScriptOf(address).value}))
  }

  function RequireSpends(plan: Plan, k: nat, inputs: seq<OutRef>, resolved: Evidence): Result<Requirements>
    requires k <= |plan.inputs|
  {
    if k == 0 then Ok(Requirements(map[], {}))
    else
      var q :- RequireSpends(plan, k - 1, inputs, resolved);
      RequireSpend(q, plan, plan.inputs[k - 1], inputs, resolved)
  }

  function RequireMint(q: Requirements, mint: PlannedMint, policies: seq<Hex>): Result<Requirements> {
    var policy := Lower(mint.policy);
    :- Need(MintPointer(policies, policy) !in q.expected, DuplicateReference);
    Ok(Requirements(q.expected[MintPointer(policies, policy) := MintAction(mint.redeemer)], q.scripts + {policy}))
  }

  function RequireMints(q: Requirements, mints: seq<PlannedMint>, k: nat, policies: seq<Hex>): Result<Requirements>
    requires k <= |mints|
  {
    if k == 0 then Ok(q)
    else
      var earlier :- RequireMints(q, mints, k - 1, policies);
      RequireMint(earlier, mints[k - 1], policies)
  }

  /** Without a plan nothing may execute. */
  function PlannedRequirements(plan: Option<Plan>, inputs: seq<OutRef>, policies: seq<Hex>, resolved: Evidence): Result<Requirements> {
    if plan.None? then Ok(Requirements(map[], {}))
    else
      var spends :- RequireSpends(plan.value, |plan.value.inputs|, inputs, resolved);
      RequireMints(spends, plan.value.mint, |plan.value.mint|, policies)
  }

  lemma {:induction false} SpendsFailEarly(plan: Plan, k: nat, n: nat, inputs: seq<OutRef>, resolved: Evidence)
    requires k <= n <= |plan.inputs| && RequireSpends(plan, k, inputs, resolved).Err?
    ensures RequireSpends(plan, n, inputs, resolved) == RequireSpends(plan, k, inputs, resolved)
  {
    hide RequireSpend;
    if k < n {
      SpendsFailEarly(plan, k, n - 1, inputs, resolved);
    }
  }

  lemma {:induction false} MintsFailEarly(q: Requirements, mints: seq<PlannedMint>, k: nat, n: nat, policies: seq<Hex>)
    requires k <= n <= |mints| && RequireMints(q, mints, k, policies).Err?
    ensures RequireMints(q, mints, n, policies) == RequireMints(q, mints, k, policies)
  {
    hide RequireMint;
    if k < n {
      MintsFailEarly(q, mints, k, n - 1, policies);
    }
  }

  method PlannedWitnessRequirements(plan: Option<Plan>, inputs: seq<OutRef>, policies: seq<Hex>, resolved: Evidence)
    returns (r: Result<Requirements>)
    ensures r == PlannedRequirements(plan, inputs, policies, resolved)
  {
    hide SpendPointer, MintPointer, PlannedScript;
    var expected: map<Pointer, Redeemer>, scripts: set<Hex> := map[], {};
    if plan.None? {
      return Ok(Requirements(expected, scripts));
    }
    var intent := plan.value;
    for i := 0 to |intent.inputs|
      invariant RequireSpends(intent, i, inputs, resolved) == Ok(Requirements(expected, scripts))
    {
      var source := intent.inputs[i];
      var id := RefId(source.ref);
      var required := RequireSpend(Requirements(expected, scripts), intent, source, inputs, resolved);
      if required.Err? {
        SpendsFailEarly(intent, i + 1, |intent.inputs|, inputs, resolved);
        return required;
      }
      if source.redeemer.Some? {
        scripts := scripts + {ScriptOf(resolved[id].address).value};
        expected := expected[SpendPointer(inputs, id) := source.redeemer.value];
      }
    }
    ghost var spends := Requirements(expected, scripts);
    for i := 0 to |intent.mint|
      invariant RequireMints(spends, intent.mint, i, policies) == Ok(Requirements(expected, scripts))
    {
      var mint := intent.mint[i];
      var policy := Lower(mint.policy);
      var pointer := MintPointer(policies, policy);
      if pointer in expected {
        MintsFailEarly(spends, intent.mint, i + 1, |intent.mint|, policies);
        return Err(DuplicateReference);
      }
      expected := expected[pointer := MintAction(mint.redeemer)];
      scripts := scripts + {policy};
    }
    return Ok(Requirements(expected, scripts));
  }

  function Pointers(redeemers: seq<ObservedRedeemer>): (r: seq<Pointer>)
    ensures |r| == |redeemers| && forall i :: 0 <= i < |redeemers| ==> r[i] == redeemers[i].pointer
  {
    seq(|redeemers|, i requires 0 <= i < |redeemers| => redeemers[i].pointer)
  }

  /** The observed redeemers are exactly the expected ones: one for each pointer, with its data, and no other. */
  ghost predicate ExactlyExpected(redeemers: seq<ObservedRedeemer>, expected: map<Pointer, Redeemer>) {
    && Distinct(Pointers(redeemers))
    && (forall i :: 0 <= i < |redeemers| ==>
          redeemers[i].pointer in expected && redeemers[i].data == Some(expected[redeemers[i].pointer]))
    && (forall pointer <- expected :: exists i :: 0 <= i < |redeemers| && redeemers[i].pointer == pointer)
  }

  /** The pointers of the first k redeemers. */
  function Consumed(redeemers: seq<ObservedRedeemer>, k: nat): set<Pointer>
    requires k <= |redeemers|
  {
    set i | 0 <= i < k :: redeemers[i].pointer
  }

  lemma ConsumedStep(redeemers: seq<ObservedRedeemer>, i: nat)
    requires i <= |redeemers|
    ensures Consumed(redeemers, 0) == {}
    ensures forall k :: 0 <= k < i ==> redeemers[k].pointer in Consumed(redeemers, i)
    ensures i < |redeemers| ==> Consumed(redeemers, i + 1) == Consumed(redeemers, i) + {redeemers[i].pointer}
  {
  }

  /** Walk the observed redeemers, deleting each matched expectation; nothing may be missing or left over. */
  method VerifyRedeemers(redeemers: seq<ObservedRedeemer>, planned: map<Pointer, Redeemer>) returns (ok: bool)
    ensures ok <==> ExactlyExpected(redeemers, planned)
  {
    if |redeemers| != |planned| {
      ExactCount(redeemers, planned);
      return false;
    }
    hide ExactlyExpected, Consumed;
    ConsumedStep(redeemers, 0);
    var expected := planned;
    for i := 0 to |redeemers|
      invariant forall j, k :: 0 <= j < k < i ==> redeemers[j].pointer != redeemers[k].pointer
      invariant forall k :: 0 <= k < i ==>
        redeemers[k].pointer in planned && redeemers[k].data == Some(planned[redeemers[k].pointer])
      invariant expected == planned - Consumed(redeemers, i)
    {
      var item := redeemers[i];
      if item.pointer !in expected || item.data != Some(expected[item.pointer]) {
        MissesExpectation(redeemers, planned, i);
        return false;
      }
      ConsumedStep(redeemers, i);
      expected := expected - {item.pointer};
    }
    if expected != map[] {
      SomethingLeft(redeemers, planned);
      return false;
    }
    NothingLeft(redeemers, planned);
    AllMatched(redeemers, planned);
    return true;
  }

  lemma SomethingLeft(redeemers: seq<ObservedRedeemer>, planned: map<Pointer, Redeemer>)
    requires planned - Consumed(redeemers, |redeemers|) != map[]
    ensures !ExactlyExpected(redeemers, planned)
  {
    assert (planned - Consumed(redeemers, |redeemers|)).Keys != {};
  }

  lemma AllMatched(redeemers: seq<ObservedRedeemer>, planned: map<Pointer, Redeemer>)
    requires forall j, k :: 0 <= j < k < |redeemers| ==> redeemers[j].pointer != redeemers[k].pointer
    requires forall k :: 0 <= k < |redeemers| ==>
      redeemers[k].pointer in planned && redeemers[k].data == Some(planned[redeemers[k].pointer])
    requires forall pointer <- planned :: exists i :: 0 <= i < |redeemers| && redeemers[i].pointer == pointer
    ensures ExactlyExpected(redeemers, planned)
  {
  }

  lemma NothingLeft(redeemers: seq<ObservedRedeemer>, planned: map<Pointer, Redeemer>)
    requires planned - Consumed(redeemers, |redeemers|) == map[]
    ensures forall pointer <- planned :: exists i :: 0 <= i < |redeemers| && redeemers[i].pointer == pointer
  {
    var left := planned - Consumed(redeemers, |redeemers|);
    assert forall pointer <- planned :: pointer in left || pointer in Consumed(redeemers, |redeemers|);
  }

  lemma {:induction false} DistinctCount(pointers: seq<Pointer>)
    requires Distinct(pointers)
    ensures |set p | p in pointers| == |pointers|
  {
    if pointers != [] {
      var last := |pointers| - 1;
      DistinctCount(pointers[..last]);
      assert pointers[last] !in pointers[..last];
      assert (set p | p in pointers) == (set p | p in pointers[..last]) + {pointers[last]};
    }
  }

  lemma ExactCount(redeemers: seq<ObservedRedeemer>, planned: map<Pointer, Redeemer>)
    ensures ExactlyExpected(redeemers, planned) ==> |redeemers| == |planned|
  {
    if ExactlyExpected(redeemers, planned) {
      DistinctCount(Pointers(redeemers));
      forall p ensures p in Pointers(redeemers) <==> p in planned.Keys {
        if p in planned {
          var i :| 0 <= i < |redeemers| && redeemers[i].pointer == p;
          assert Pointers(redeemers)[i] == p;
        }
      }
      assert (set p | p in Pointers(redeemers)) == planned.Keys;
    }
  }

  lemma MissesExpectation(redeemers: seq<ObservedRedeemer>, planned: map<Pointer, Redeemer>, i: nat)
    requires i < |redeemers|
    requires
      var left := planned - Consumed(redeemers, i);
      redeemers[i].pointer !in left || redeemers[i].data != Some(left[redeemers[i].pointer])
    ensures !ExactlyExpected(redeemers, planned)
  {
    if redeemers[i].pointer in planned && redeemers[i].pointer in Consumed(redeemers, i) {
      var k :| 0 <= k < i && redeemers[k].pointer == redeemers[i].pointer;
      assert Pointers(redeemers)[k] == Pointers(redeemers)[i];
    }
  }

  lemma {:induction false} InsertKeepsMembers(item: OutRef, items: seq<OutRef>, id: OutRef)
    ensures id in Insert(item, items, Itself) <==> id == item || id in items
  {
    if items != [] && !RefLess(RefId(item), RefId(items[0])) {
      InsertKeepsMembers(item, items[1..], id);
    }
  }

  lemma {:induction false} SortKeepsMembers(items: seq<OutRef>, id: OutRef)
    ensures id in SortItems(items, Itself) <==> id in items
  {
    if items != [] {
      SortKeepsMembers(items[1..], id);
      InsertKeepsMembers(items[0], SortItems(items[1..], Itself), id);
    }
  }

  /** A spend pointer designates its input in canonical order, so different inputs have different pointers. */
  lemma SpendPointerDesignates(inputs: seq<OutRef>, id: OutRef)
    requires id in inputs
    ensures
      var pointer := SpendPointer(inputs, id);
      pointer.tag.SpendTag? && 0 <= pointer.index < |inputs| && SortItems(inputs, Itself)[pointer.index] == id
  {
    SortKeepsMembers(inputs, id);
  }

  lemma {:induction false} RequiredSpendsMean(plan: Plan, k: nat, inputs: seq<OutRef>, resolved: Evidence)
    requires k <= |plan.inputs| && RequireSpends(plan, k, inputs, resolved).Ok?
    requires Distinct(InputRefs(plan.inputs)) && forall id <- InputRefs(plan.inputs) :: id in inputs
    ensures
      var expected := RequireSpends(plan, k, inputs, resolved).value.expected;
      && (forall i :: 0 <= i < k && plan.inputs[i].redeemer.Some? ==>
            var pointer := SpendPointer(inputs, RefId(plan.inputs[i].ref));
            pointer in expected && expected[pointer] == plan.inputs[i].redeemer.value)
      && forall pointer <- expected :: pointer.tag.SpendTag? && exists i ::
            0 <= i < k && plan.inputs[i].redeemer.Some? && SpendPointer(inputs, RefId(plan.inputs[i].ref)) == pointer
  {
    hide SpendPointer, RefId, PlannedScript;
    if k > 0 {
      RequiredSpendsMean(plan, k - 1, inputs, resolved);
      var refs := InputRefs(plan.inputs);
      var last := refs[k - 1];
      SpendPointerDesignates(inputs, last);
      forall i | 0 <= i < k - 1 ensures SpendPointer(inputs, refs[i]) != SpendPointer(inputs, last) {
        SpendPointerDesignates(inputs, refs[i]);
      }
    }
  }

  lemma MintPointerTag(policies: seq<Hex>, policy: Hex)
    ensures MintPointer(policies, policy).tag.MintTag?
  {
  }

  lemma {:induction false} RequiredMintsMean(q: Requirements, mints: seq<PlannedMint>, k: nat, policies: seq<Hex>)
    requires k <= |mints| && RequireMints(q, mints, k, policies).Ok?
    requires forall pointer <- q.expected :: pointer.tag.SpendTag?
    ensures
      var expected := RequireMints(q, mints, k, policies).value.expected;
      && (forall pointer <- q.expected :: pointer in expected && expected[pointer] == q.expected[pointer])
      && (forall j :: 0 <= j < k ==>
            var pointer := MintPointer(policies, Lower(mints[j].policy));
            pointer in expected && expected[pointer] == MintAction(mints[j].redeemer))
      && forall pointer <- expected :: pointer in q.expected || (pointer.tag.MintTag? && exists j ::
            0 <= j < k && MintPointer(policies, Lower(mints[j].policy)) == pointer)
  {
    hide Lower, MintPointer;
    if k > 0 {
      RequiredMintsMean(q, mints, k - 1, policies);
      MintPointerTag(policies, Lower(mints[k - 1].policy));
    }
  }

  predicate IsSpendOf(plan: Plan, i: int, inputs: seq<OutRef>, pointer: Pointer) {
    && 0 <= i < |plan.inputs| && plan.inputs[i].redeemer.Some?
    && SpendPointer(inputs, RefId(plan.inputs[i].ref)) == pointer
  }

  predicate IsMintOf(plan: Plan, j: int, policies: seq<Hex>, pointer: Pointer) {
    0 <= j < |plan.mint| && MintPointer(policies, Lower(plan.mint[j].policy)) == pointer
  }

  /** The planned actions are exactly the expected ones. */
  lemma RequirementsMean(plan: Plan, inputs: seq<OutRef>, policies: seq<Hex>, resolved: Evidence)
    requires PlannedRequirements(Some(plan), inputs, policies, resolved).Ok?
    requires Distinct(InputRefs(plan.inputs)) && forall id <- InputRefs(plan.inputs) :: id in inputs
    ensures
      var expected := PlannedRequirements(Some(plan), inputs, policies, resolved).value.expected;
      && (forall i, pointer :: IsSpendOf(plan, i, inputs, pointer) ==>
            pointer in expected && expected[pointer] == plan.inputs[i].redeemer.value)
      && (forall j, pointer :: IsMintOf(plan, j, policies, pointer) ==>
            pointer in expected && expected[pointer] == MintAction(plan.mint[j].redeemer))
      && forall pointer <- expected ::
           || (pointer.tag.SpendTag? && exists i :: IsSpendOf(plan, i, inputs, pointer))
           || (pointer.tag.MintTag? && exists j :: IsMintOf(plan, j, policies, pointer))
  {
    hide Lower, SpendPointer, MintPointer, RequireSpends, RequireMints, RefId;
    var spends := RequireSpends(plan, |plan.inputs|, inputs, resolved).value;
    RequiredSpendsMean(plan, |plan.inputs|, inputs, resolved);
    RequiredMintsMean(spends, plan.mint, |plan.mint|, policies);
    var expected := PlannedRequirements(Some(plan), inputs, policies, resolved).value.expected;
    forall pointer <- expected
      ensures (pointer.tag.SpendTag? && exists i :: IsSpendOf(plan, i, inputs, pointer))
        || (pointer.tag.MintTag? && exists j :: IsMintOf(plan, j, policies, pointer))
    {
      if pointer in spends.expected {
        var i :| 0 <= i < |plan.inputs| && plan.inputs[i].redeemer.Some?
          && SpendPointer(inputs, RefId(plan.inputs[i].ref)) == pointer;
        assert IsSpendOf(plan, i, inputs, pointer);
      } else {
        var j :| 0 <= j < |plan.mint| && MintPointer(policies, Lower(plan.mint[j].policy)) == pointer;
        assert IsMintOf(plan, j, policies, pointer);
      }
    }
  }

  /**
   * Accepted execution is the planned execution: every planned script input and every planned mint has exactly one
   * observed redeemer, at its own position in canonical order and with its own action, and there are no others.
   */
  ghost predicate ExecutesPlan(plan: Plan, inputs: seq<OutRef>, policies: seq<Hex>, redeemers: seq<ObservedRedeemer>) {
    && Distinct(Pointers(redeemers))
    && (forall k :: 0 <= k < |redeemers| ==>
          || (redeemers[k].pointer.tag.SpendTag? && exists i :: IsSpendOf(plan, i, inputs, redeemers[k].pointer))
          || (redeemers[k].pointer.tag.MintTag? && exists j :: IsMintOf(plan, j, policies, redeemers[k].pointer)))
    && (forall i :: 0 <= i < |plan.inputs| && plan.inputs[i].redeemer.Some? ==>
          Observed(redeemers, SpendPointer(inputs, RefId(plan.inputs[i].ref)), plan.inputs[i].redeemer.value))
    && (forall j :: 0 <= j < |plan.mint| ==>
          Observed(redeemers, MintPointer(policies, Lower(plan.mint[j].policy)), MintAction(plan.mint[j].redeemer)))
  }

  predicate Observed(redeemers: seq<ObservedRedeemer>, pointer: Pointer, data: Redeemer) {
    exists k :: 0 <= k < |redeemers| && redeemers[k].pointer == pointer && redeemers[k].data == Some(data)
  }

  lemma ExecutionIsPlanned(
    plan: Plan, inputs: seq<OutRef>, policies: seq<Hex>, resolved: Evidence, redeemers: seq<ObservedRedeemer>)
    requires PlannedRequirements(Some(plan), inputs, policies, resolved).Ok?
    requires Distinct(InputRefs(plan.inputs)) && forall id <- InputRefs(plan.inputs) :: id in inputs
    requires ExactlyExpected(redeemers, PlannedRequirements(Some(plan), inputs, policies, resolved).value.expected)
    ensures ExecutesPlan(plan, inputs, policies, redeemers)
  {
    hide PlannedRequirements, SpendPointer, MintPointer, RefId, Lower;
    RequirementsMean(plan, inputs, policies, resolved);
    forall i | 0 <= i < |plan.inputs| && plan.inputs[i].redeemer.Some?
      ensures Observed(redeemers, SpendPointer(inputs, RefId(plan.inputs[i].ref)), plan.inputs[i].redeemer.value)
    {
      assert IsSpendOf(plan, i, inputs, SpendPointer(inputs, RefId(plan.inputs[i].ref)));
    }
    forall j | 0 <= j < |plan.mint|
      ensures Observed(redeemers, MintPointer(policies, Lower(plan.mint[j].policy)), MintAction(plan.mint[j].redeemer))
    {
      assert IsMintOf(plan, j, policies, MintPointer(policies, Lower(plan.mint[j].policy)));
    }
  }

  /** Attached programs are all needed, and each needed program is attached or held by a named reference input. */
  ghost predicate ScriptsAvailable(attached: seq<Hex>, needed: set<Hex>, references: Evidence, named: seq<OutRef>) {
    && (forall hash <- attached :: hash in needed)
    && forall hash <- needed :: hash in attached
         || exists id :: id in named && id in references && references[id].script == Some(hash)
  }

  method VerifyScriptAvailability(attached: seq<Hex>, needed: set<Hex>, references: Evidence, named: seq<OutRef>)
    returns (ok: bool)
    ensures ok <==> ScriptsAvailable(attached, needed, references, named)
  {
    var available: set<Hex> := {};
    for i := 0 to |attached|
      invariant available == set k | 0 <= k < i :: attached[k]
      invariant forall k :: 0 <= k < i ==> attached[k] in needed
    {
      if attached[i] !in needed {
        return false;
      }
      available := available + {attached[i]};
    }
    for i := 0 to |named|
      invariant forall hash :: hash in available <==>
        hash in attached || exists k :: 0 <= k < i && named[k] in references && references[named[k]].script == Some(hash)
    {
      if named[i] in references && references[named[i]].script.Some? {
        available := available + {references[named[i]].script.value};
      }
    }
    return needed <= available;
  }

  /** Observed witnesses of a candidate; `others` means a native or older script, a datum or a bootstrap witness. */
  datatype WitnessSet = WitnessSet(redeemers: seq<ObservedRedeemer>, scripts: seq<Hex>, others: bool)

  ghost predicate WitnessesFit(
    witnesses: WitnessSet, plan: Option<Plan>, inputs: seq<OutRef>, policies: seq<Hex>, resolved: Evidence,
    references: Evidence, named: seq<OutRef>)
  {
    var required := PlannedRequirements(plan, inputs, policies, resolved);
    && !witnesses.others && required.Ok?
    && ExactlyExpected(witnesses.redeemers, required.value.expected)
    && ScriptsAvailable(witnesses.scripts, required.value.scripts, references, named)
  }

  method VerifyWitnesses(
    witnesses: WitnessSet, plan: Option<Plan>, inputs: seq<OutRef>, policies: seq<Hex>, resolved: Evidence,
    references: Evidence, named: seq<OutRef>) returns (ok: bool)
    ensures ok <==> WitnessesFit(witnesses, plan, inputs, policies, resolved, references, named)
  {
    hide PlannedRequirements, ExactlyExpected, ScriptsAvailable;
    if witnesses.others {
      return false;
    }
    var required := PlannedWitnessRequirements(plan, inputs, policies, resolved);
    if required.Err? {
      return false;
    }
    var exact := VerifyRedeemers(witnesses.redeemers, required.value.expected);
    if !exact {
      return false;
    }
    ok := VerifyScriptAvailability(witnesses.scripts, required.value.scripts, references, named);
  }
}
