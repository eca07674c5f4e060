/** What an approval means, condition by condition, over the candidate's own fields and the wallet's prior authorization. */
module Approvals {
  import opened Results
  import opened Types
  import opened HexStrings
  import opened References
  import opened Values
  import opened Planning
  import opened AcceptedTransactions
  import opened EffectsLedger
  import opened EffectOutputs
  import opened EffectInputs
  import opened Witnesses
  import opened Effects

  /** A base or enterprise address of the network whose payment part is a key. */
  predicate HeldByKey(address: LedgerAddress) {
    address.payment.Some? && address.payment.value.kind == Key
  }

  predicate HeldByScript(address: LedgerAddress, hash: Hex) {
    address.payment.Some? && address.payment.value.kind == Script && address.payment.value.hash == hash
  }

  /** An authorization category names a reference, with its evidence. */
  predicate Names(values: seq<ResolvedInput>, id: OutRef, e: ResolvedInput) {
    e in values && RefId(e.ref) == id
  }

  lemma EvidenceNames(values: seq<ResolvedInput>, id: OutRef)
    requires id in EvidenceMap(values)
    ensures Names(values, id, EvidenceMap(values)[id])
  {
    hide RefId, EvidenceMap;
    EvidenceMapMeans(values);
  }

  /** Whether an input is one that the plan spends. */
  predicate Planned(plan: Option<Plan>, id: OutRef) {
    plan.Some? && exists i :: 0 <= i < |plan.value.inputs| && InputRefs(plan.value.inputs)[i] == id
  }

  /**
   * Every spend is planned, or allowlisted funding held by a key; every planned spend and reference is there; every
   * reference is allowlisted, and read only.
   */
  ghost predicate SpendsRespected(refs: BodyRefs, plan: Option<Plan>, auth: WalletAuthorization) {
    && (forall id <- refs.inputs ::
          || (Planned(plan, id) && exists e :: Names(auth.planInputs, id, e))
          || (!Planned(plan, id) && exists e :: Names(auth.allowedFunding, id, e) && HeldByKey(e.address)))
    && (plan.Some? ==>
          && (forall i :: 0 <= i < |plan.value.inputs| ==> RefId(plan.value.inputs[i].ref) in refs.inputs)
          && (forall i :: 0 <= i < |plan.value.referenceInputs| ==> RefId(plan.value.referenceInputs[i]) in refs.references))
    && (forall id <- refs.references ::
          id !in refs.inputs && id !in refs.collateral && exists e :: Names(auth.allowedReferences, id, e))
  }

  lemma SpendsAreRespected(refs: BodyRefs, plan: Option<Plan>, auth: WalletAuthorization)
    requires InputsAcceptable(refs, plan, ListsOf(auth)) && EvidenceFits(auth)
    ensures SpendsRespected(refs, plan, auth)
  {
    hide RefId, EvidenceMap, IsEvidenceList;
    var lists := ListsOf(auth);
    forall id <- refs.inputs
      ensures (Planned(plan, id) && exists e :: Names(auth.planInputs, id, e))
        || (!Planned(plan, id) && exists e :: Names(auth.allowedFunding, id, e) && HeldByKey(e.address))
    {
      if id in lists.sources {
        EvidenceNames(auth.planInputs, id);
      } else {
        EvidenceNames(auth.allowedFunding, id);
        FundingIsKeyHeld(auth.allowedFunding, auth.networkId, EvidenceMap(auth.allowedFunding)[id]);
      }
    }
    forall id <- refs.references ensures exists e :: Names(auth.allowedReferences, id, e) {
      EvidenceNames(auth.allowedReferences, id);
    }
    if plan.Some? {
      PlanIsPresent(refs, plan.value, lists);
    }
  }

  lemma PlanIsPresent(refs: BodyRefs, plan: Plan, lists: Allowlists)
    requires InputsAcceptable(refs, Some(plan), lists)
    ensures forall i :: 0 <= i < |plan.inputs| ==> RefId(plan.inputs[i].ref) in refs.inputs
    ensures forall i :: 0 <= i < |plan.referenceInputs| ==> RefId(plan.referenceInputs[i]) in refs.references
  {
    hide RefId;
    forall i | 0 <= i < |plan.inputs| ensures RefId(plan.inputs[i].ref) in refs.inputs {
      assert InputRefs(plan.inputs)[i] in PlannedIds(Some(plan));
    }
    forall i | 0 <= i < |plan.referenceInputs| ensures RefId(plan.referenceInputs[i]) in refs.references {
      assert PlannedReferences(Some(plan))[i] in PlannedReferences(Some(plan));
    }
  }

  lemma FundingIsKeyHeld(values: seq<ResolvedInput>, networkId: int, e: ResolvedInput)
    requires IsEvidenceList(values, networkId, true) && e in values
    ensures HeldByKey(e.address)
  {
    hide IsLedgerValue, Ids;
  }

  /** Collateral is allowlisted and held by keys; exposure is ADA alone, bounded, and any return is change. */
  ghost predicate CollateralRespected(body: CandidateBody, refs: BodyRefs, auth: WalletAuthorization) {
    && (forall id <- refs.collateral :: exists e :: Names(auth.allowedCollateral, id, e) && HeldByKey(e.address))
    && (body.collateralReturn.Some? ==>
          && refs.collateral != [] && body.collateralReturn.value.address == auth.change.address
          && body.collateralReturn.value.script == None && body.totalCollateral.Some?)
  }

  lemma CollateralIsRespected(body: CandidateBody, refs: BodyRefs, auth: WalletAuthorization)
    requires EvidenceFits(auth)
    requires CollateralAcceptable(refs.collateral, EvidenceMap(auth.allowedCollateral), body.collateralReturn, body.totalCollateral,
      auth.change, auth.maxCollateralExposure, auth.networkId)
    ensures CollateralRespected(body, refs, auth)
  {
    hide RefId, EvidenceMap, IsEvidenceList, Exposure, OutputId, SameDatum;
    forall id <- refs.collateral ensures exists e :: Names(auth.allowedCollateral, id, e) && HeldByKey(e.address) {
      EvidenceNames(auth.allowedCollateral, id);
      FundingIsKeyHeld(auth.allowedCollateral, auth.networkId, EvidenceMap(auth.allowedCollateral)[id]);
    }
  }

  /** A protected output is the planned one: address, every quantity, inline datum or none, and no script. */
  predicate IsPlannedOutput(o: WalletOutput, planned: PlannedOutput, networkId: int) {
    && o.address.networkId == networkId && o.script == None
    && o.address.payment == Some(Credential(planned.address.payment.kind, Lower(planned.address.payment.hash)))
    && (if planned.address.stake.None? then o.address.kind == EnterpriseAddress && o.address.stake == None
        else
          && o.address.kind == BaseAddress
          && o.address.stake == Some(Credential(planned.address.stake.value.kind, Lower(planned.address.stake.value.hash))))
    && o.datum == (if planned.datum.None? then NoDatum else InlineDatum(planned.datum.value))
  }

  /** The planned outputs come first, in order; change is the wallet's own address and datum, without a script. */
  ghost predicate OutputsRespected(body: CandidateBody, plan: Option<Plan>, auth: WalletAuthorization, roles: seq<ReviewRole>) {
    && |roles| == |body.outputs|
    && (plan.Some? ==>
          && |plan.value.outputs| <= |body.outputs|
          && forall i :: 0 <= i < |plan.value.outputs| ==>
               && roles[i] == ProtectedRole && IsPlannedOutput(body.outputs[i], plan.value.outputs[i], auth.networkId)
               && forall a :: Amount(body.outputs[i].value, a) == Amount(plan.value.outputs[i].value, a))
    && forall i :: 0 <= i < |roles| && roles[i] == ChangeRole ==>
         && body.outputs[i].address == auth.change.address && body.outputs[i].script == None
         && (match auth.change.datum
             case NoDatum => body.outputs[i].datum == NoDatum
             case InlineDatum(d) => body.outputs[i].datum == InlineDatum(d)
             case HashDatum(h) => body.outputs[i].datum.HashDatum? && Lower(body.outputs[i].datum.hash) == Lower(h))
  }

  lemma PlannedIsKept(o: WalletOutput, planned: PlannedOutput, networkId: int)
    requires SameOutput(o, ExpectedOutput(planned, networkId), networkId)
    ensures IsPlannedOutput(o, planned, networkId)
    ensures forall a :: Amount(o.value, a) == Amount(planned.value, a)
  {
    hide SameValue, Amount, Lower;
    SameValueMeans(o.value, planned.value);
  }

  lemma OutputsAreRespected(body: CandidateBody, plan: Option<Plan>, auth: WalletAuthorization, roles: seq<ReviewRole>)
    requires OutputsAcceptable(body.outputs, PlannedOutputs(plan), auth.permitted, auth.change, auth.networkId)
    requires RolesAccount(body.outputs, roles, PlannedOutputs(plan), auth.permitted, auth.change, auth.networkId)
    ensures OutputsRespected(body, plan, auth, roles)
  {
    hide TailAccounted, AmountSum, SameOutput, Amount, ExpectedOutput, IsPlannedOutput, Having, Lower;
    if plan.Some? {
      forall i | 0 <= i < |plan.value.outputs|
        ensures roles[i] == ProtectedRole && IsPlannedOutput(body.outputs[i], plan.value.outputs[i], auth.networkId)
        ensures forall a :: Amount(body.outputs[i].value, a) == Amount(plan.value.outputs[i].value, a)
      {
        PlannedIsKept(body.outputs[i], plan.value.outputs[i], auth.networkId);
      }
    }
  }

  /** The script that a planned spend of a role sits at. */
  predicate AtPlannedScript(plan: Plan, role: InputRole, address: LedgerAddress) {
    match role
    case ClaimInput => plan.deployment.claimScript.Some? && HeldByScript(address, Lower(plan.deployment.claimScript.value))
    case _ => HeldByScript(address, Lower(plan.deployment.policy))
  }

  /** A planned spend with a redeemer sits at the script of its role, and one without is held by a key. */
  predicate SpendIsPlaced(plan: Plan, i: nat, resolved: Evidence)
    requires i < |plan.inputs|
  {
    var id := RefId(plan.inputs[i].ref);
    && id in resolved
    && if plan.inputs[i].redeemer.None? then HeldByKey(resolved[id].address)
       else AtPlannedScript(plan, plan.inputs[i].role, resolved[id].address)
  }

  /** A program that the plan needs: of a spend with a redeemer, or of a mint. */
  predicate IsNeeded(plan: Plan, spends: nat, mints: nat, resolved: Evidence, hash: Hex)
    requires spends <= |plan.inputs| && mints <= |plan.mint|
  {
    || (exists i :: 0 <= i < spends && plan.inputs[i].redeemer.Some? && RefId(plan.inputs[i].ref) in resolved
          && HeldByScript(resolved[RefId(plan.inputs[i].ref)].address, hash))
    || (exists j :: 0 <= j < mints && Lower(plan.mint[j].policy) == hash)
  }

  lemma {:induction false} RequiredSpendsArePlaced(plan: Plan, k: nat, inputs: seq<OutRef>, resolved: Evidence)
    requires k <= |plan.inputs| && RequireSpends(plan, k, inputs, resolved).Ok?
    ensures forall i :: 0 <= i < k ==> SpendIsPlaced(plan, i, resolved)
    ensures forall hash :: hash in RequireSpends(plan, k, inputs, resolved).value.scripts <==> IsNeeded(plan, k, 0, resolved, hash)
  {
    hide SpendPointer, RefId, Lower;
    if k > 0 {
      RequiredSpendsArePlaced(plan, k - 1, inputs, resolved);
      var earlier := RequireSpends(plan, k - 1, inputs, resolved).value.scripts;
      var now := RequireSpends(plan, k, inputs, resolved).value.scripts;
      forall hash ensures hash in now <==> IsNeeded(plan, k, 0, resolved, hash) {
        assert hash in earlier <==> IsNeeded(plan, k - 1, 0, resolved, hash);
      }
    }
  }

  lemma {:induction false} RequiredMintsAreNeeded(
    q: Requirements, plan: Plan, k: nat, policies: seq<Hex>, resolved: Evidence)
    requires k <= |plan.mint| && RequireMints(q, plan.mint, k, policies).Ok?
    requires forall hash :: hash in q.scripts <==> IsNeeded(plan, |plan.inputs|, 0, resolved, hash)
    ensures forall hash ::
      hash in RequireMints(q, plan.mint, k, policies).value.scripts <==> IsNeeded(plan, |plan.inputs|, k, resolved, hash)
  {
    hide MintPointer, RefId, Lower, HeldByScript;
    if k > 0 {
      RequiredMintsAreNeeded(q, plan, k - 1, policies, resolved);
      var earlier := RequireMints(q, plan.mint, k - 1, policies).value.scripts;
      var now := RequireMints(q, plan.mint, k, policies).value.scripts;
      forall hash ensures hash in now <==> IsNeeded(plan, |plan.inputs|, k, resolved, hash) {
        assert hash in earlier <==> IsNeeded(plan, |plan.inputs|, k - 1, resolved, hash);
      }
    }
  }

  /** Attached programs are those the plan needs, each needed one is attached or held by a named reference, and nothing else is. */
  ghost predicate ProgramsRespected(tx: Candidate, refs: BodyRefs, plan: Option<Plan>, auth: WalletAuthorization, resolved: Evidence) {
    && !tx.witnesses.others
    && (plan.None? ==> tx.witnesses.scripts == [] && tx.witnesses.redeemers == [])
    && (plan.Some? ==>
          && (forall i :: 0 <= i < |plan.value.inputs| ==> SpendIsPlaced(plan.value, i, resolved))
          && (forall hash <- tx.witnesses.scripts :: IsNeeded(plan.value, |plan.value.inputs|, |plan.value.mint|, resolved, hash))
          && forall hash :: IsNeeded(plan.value, |plan.value.inputs|, |plan.value.mint|, resolved, hash) ==>
               hash in tx.witnesses.scripts
               || exists id, e :: id in refs.references && Names(auth.allowedReferences, id, e) && e.script == Some(hash))
  }

  lemma NeededIsAvailable(
    tx: Candidate, refs: BodyRefs, auth: WalletAuthorization, scripts: set<Hex>, hash: Hex)
    requires ScriptsAvailable(tx.witnesses.scripts, scripts, ListsOf(auth).references, refs.references) && hash in scripts
    ensures hash in tx.witnesses.scripts
      || exists id, e :: id in refs.references && Names(auth.allowedReferences, id, e) && e.script == Some(hash)
  {
    hide EvidenceMap, Names;
    if hash !in tx.witnesses.scripts {
      var references := ListsOf(auth).references;
      var id :| id in refs.references && id in references && references[id].script == Some(hash);
      EvidenceNames(auth.allowedReferences, id);
    }
  }

  lemma ProgramsAreRespected(
    tx: Candidate, refs: BodyRefs, plan: Option<Plan>, auth: WalletAuthorization, policies: seq<Hex>, resolved: Evidence)
    requires WitnessesFit(tx.witnesses, plan, refs.inputs, policies, resolved, ListsOf(auth).references, refs.references)
    ensures ProgramsRespected(tx, refs, plan, auth, resolved)
  {
    hide RequireSpends, RequireMints, ListsOf, Names, SpendIsPlaced, IsNeeded, ScriptsAvailable;
    var required := PlannedRequirements(plan, refs.inputs, policies, resolved).value;
    if plan.Some? {
      var spends := RequireSpends(plan.value, |plan.value.inputs|, refs.inputs, resolved).value;
      RequiredSpendsArePlaced(plan.value, |plan.value.inputs|, refs.inputs, resolved);
      RequiredMintsAreNeeded(spends, plan.value, |plan.value.mint|, policies, resolved);
      AttachedAreNeeded(tx.witnesses.scripts, required.scripts, ListsOf(auth).references, refs.references);
      forall hash | hash in required.scripts
        ensures hash in tx.witnesses.scripts
          || exists id, e :: id in refs.references && Names(auth.allowedReferences, id, e) && e.script == Some(hash)
      {
        NeededIsAvailable(tx, refs, auth, required.scripts, hash);
      }
    } else {
      NoPlanNoExecution(refs.inputs, policies, resolved, tx.witnesses.redeemers);
      AttachedAreNeeded(tx.witnesses.scripts, required.scripts, ListsOf(auth).references, refs.references);
    }
  }

  lemma AttachedAreNeeded(attached: seq<Hex>, needed: set<Hex>, references: Evidence, named: seq<OutRef>)
    requires ScriptsAvailable(attached, needed, references, named)
    ensures forall hash <- attached :: hash in needed
    ensures needed == {} ==> attached == []
  {
    if needed == {} && attached != [] {
      assert attached[0] in attached;
    }
  }

  /** The references under review are the body's own, up to the spelling of their transactions. */
  predicate RefsAreRead(body: CandidateBody, refs: BodyRefs) {
    && |refs.inputs| == |body.inputs| && (forall i :: 0 <= i < |body.inputs| ==> refs.inputs[i] == RefId(body.inputs[i]))
    && |refs.references| == |body.references| && (forall i :: 0 <= i < |body.references| ==> refs.references[i] == RefId(body.references[i]))
    && |refs.collateral| == |body.collateral| && (forall i :: 0 <= i < |body.collateral| ==> refs.collateral[i] == RefId(body.collateral[i]))
    && Distinct(refs.inputs) && Distinct(refs.references) && Distinct(refs.collateral)
  }

  lemma RefsAreBody(body: CandidateBody)
    requires ReadBodyRefs(body).Ok?
    ensures RefsAreRead(body, ReadBodyRefs(body).value)
  {
    hide RefId, IsReference;
  }

  /**
   * An approval, spelled out. Besides the exact loss: every spend, reference and collateral input is one the wallet or the
   * plan named, held as it must be; the planned outputs come first and change is the wallet's own; planned spends sit at
   * their planned scripts; and exactly the needed programs are present.
   */
  lemma ApprovalMeans(tx: Candidate, plan: Option<Plan>, auth: WalletAuthorization, approval: Approval)
    requires Acceptable(tx, plan, auth) && Guarantees(tx, plan, auth, approval)
    ensures ReadBodyRefs(tx.body).Ok?
    ensures
      var refs := ReadBodyRefs(tx.body).value;
      && RefsAreRead(tx.body, refs)
      && SpendsRespected(refs, plan, auth) && CollateralRespected(tx.body, refs, auth)
      && OutputsRespected(tx.body, plan, auth, approval.roles)
      && ProgramsRespected(tx, refs, plan, auth, ResolvedOf(refs.inputs, ListsOf(auth).Spendable()))
      && 0 <= approval.fee <= auth.maxNetworkFee && approval.fee == tx.body.fee
  {
    hide HeaderFits, InputsAcceptable, EvidenceFits, OutputsAcceptable, WitnessesFit, MintFits, SignersFit, Conserves, RolesAccount,
      CollateralAcceptable, CollateralEvidenceFits, ReadBodyRefs, RefsAreRead, SpendsRespected, CollateralRespected, OutputsRespected,
      ProgramsRespected, ResolvedOf, MintPolicies, HeaderRespected, IntervalRespected, SignersRespected, Loss, AuthorizedLoss, Exposure;
    var refs := ReadBodyRefs(tx.body).value;
    RefsAreBody(tx.body);
    SpendsAreRespected(refs, plan, auth);
    CollateralIsRespected(tx.body, refs, auth);
    OutputsAreRespected(tx.body, plan, auth, approval.roles);
    ProgramsAreRespected(tx, refs, plan, auth, MintPolicies(tx.body.mint), ResolvedOf(refs.inputs, ListsOf(auth).Spendable()));
  }
}
