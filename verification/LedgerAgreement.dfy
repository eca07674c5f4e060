/** The reader follows the ledger: along every run, the projected State is the one the ledger holds. */
module LedgerAgreement {
  import opened Results
  import opened Types
  import opened HexStrings
  import opened Values
  import opened References
  import opened Quotes
  import opened Transitions
  import opened Planning
  import opened Settlement
  import opened Planners
  import opened Batches
  import opened Ledger
  import opened VaultRuns
  import opened AcceptedTransactions
  import opened Projections
  import opened Projecting
  import opened Lifecycles
  import opened PlannedCustody
  import A = Agreement

  /** The input that spends the State, and where its redeemer puts the next one. */
  predicate SpendsState(plan: Plan, stateRef: OutRef, batch: bool) {
    && |plan.inputs| > 0 && plan.inputs[0].ref == stateRef
    && plan.inputs[0].redeemer.Some? && plan.inputs[0].redeemer.value.StateAction?
    && plan.inputs[0].redeemer.value.state.stateOutput == 0
    && (plan.inputs[0].redeemer.value.state.Batch? <==> batch)
  }

  lemma ImmediatePlanFollows(w: World, context: Context, step: Step)
    requires w.stateRef in w.utxos && !step.BatchStep? && StatePlanOf(w, context, step).Ok?
    ensures SpendsState(StatePlanOf(w, context, step).value.plan, w.stateRef, false)
    ensures |StatePlanOf(w, context, step).value.plan.inputs| == 1
    ensures A.Follows(w.state, StatePlanOf(w, context, step).value.successor)
  {
    hide StateUpdate, ValidPlan, ValidEconomics, Preview, ValueOf, Output, ConsistentContext, AssertProtectedInput, StateShape, StateValue,
      AssertSameValue, SameHex, IsReference;
  }

  function OptionsOf(w: World, context: Context, step: Step): BatchOptions
    requires w.stateRef in w.utxos && step.BatchStep?
  {
    BatchOptions(context, StateEvidence(w), step.rewardKey, step.validity, step.rewardTopup)
  }

  /** Every plan that changes the State spends it first and produces the next State in sequence, of the same vault. */
  lemma StatePlanFollows(w: World, context: Context, step: Step)
    requires w.stateRef in w.utxos && StatePlanOf(w, context, step).Ok?
    ensures SpendsState(StatePlanOf(w, context, step).value.plan, w.stateRef, step.BatchStep?)
    ensures A.Follows(w.state, StatePlanOf(w, context, step).value.successor)
  {
    hide BuildBatch, BuildDirectPlan, CreateCollectFeesPlan, CreateTopUpPlan, CreateSetPausePlan, HoldsExactly, A.Follows, PlansClaims,
      StateValue, Entries;
    if step.BatchStep? {
      var state := A.BatchIsPlanned(OptionsOf(w, context, step), step.requests);
    } else {
      ImmediatePlanFollows(w, context, step);
    }
  }

  /** The reader's record of the vault is the ledger's State output. */
  ghost predicate InSync(w: World, p: Projection, context: Context) {
    var policy := context.deployment.policy;
    && Lower(policy) == policy && w.stateRef in w.utxos && RefId(w.stateRef) == w.stateRef
    && policy in p.vaults && A.SameIdentity(p.vaults[policy].deployment, context.deployment) && p.vaults[policy].terms == context.terms
    && (context.deployment.claimScript.Some? ==> Lower(context.deployment.claimScript.value) == context.deployment.claimScript.value)
    && p.vaults[policy].state == StateEvidence(w)
  }

  /** The State output of a sound plan is exact custody at the vault script. */
  lemma UpdateHoldsExactly(context: Context, state: State)
    requires StateUpdate(context, state).Ok?
    ensures StateValue(state, context.terms).Ok?
    ensures HoldsExactly(StateUpdate(context, state).value, context.deployment.policy, StateDatum(state), StateValue(state, context.terms).value)
  {
    hide StateEntries, ValueOf, Output, HoldsExactly;
    ValueOfMeans(StateEntries(state, context.terms));
    PlannedCustodyIsExact(StateOutput, context.deployment.policy, StateValue(state, context.terms).value, StateDatum(state));
  }

  /** The evidence of a plan's successor in output 0 of the transaction that realizes it. */
  function PlannedState(plan: StatePlan, policy: Hex, txId: Hex): ProtectedInput
    requires |plan.plan.outputs| > 0
  {
    ProtectedInput(OutRef(txId, 0), Enterprise(Script, policy), StateDatum(plan.successor), plan.plan.outputs[0].value)
  }

  /** A realized State plan is read back as planned: its redeemer designates the successor, and the reader accepts it. */
  lemma SuccessorIsDesignated(
    w: World, context: Context, step: Step, p: Projection, tx: AcceptedTransaction, network: NetworkBinding)
    returns (action: StateRedeemer)
    requires InSync(w, p, context) && ChangesState(step) && StatePlanOf(w, context, step).Ok?
    requires A.Realizes(tx, StatePlanOf(w, context, step).value.plan, network)
    ensures w.stateRef in tx.inputs && tx.valid
    ensures ActionOf(tx, w.stateRef) == Ok(StateAction(action)) && (action.Batch? <==> step.BatchStep?)
    ensures |StatePlanOf(w, context, step).value.plan.outputs| > 0
    ensures
      SuccessorState(p.vaults[context.deployment.policy], tx, action, network)
      == Ok(PlannedState(StatePlanOf(w, context, step).value, context.deployment.policy, tx.id))
  {
    hide StatePlanOf, StateUpdate, ValidEconomics, PriceNotBelow, MintOf, HoldsExactly, A.Follows, SuccessorState, ActionOf,
      Lower, StateValue, RefId, Token, A.Realizes;
    var StatePlan(plan, successor) := StatePlanOf(w, context, step).value;
    var policy := context.deployment.policy;
    StatePlanFollows(w, context, step);
    StateStepIsSound(w, context, step);
    UpdateHoldsExactly(context, successor);
    A.RealizedEmits(tx, plan, network);
    action := plan.inputs[0].redeemer.value.state;
    A.RealizedAction(tx, plan, network, w.stateRef, action);
    A.SuccessorIsRecorded(p.vaults[policy], tx, action, plan.outputs, w.state, successor, network);
  }

  /** What a transaction makes of one vault: nothing unless it spends the State, and then the designated successor. */
  function VaultAfter(vault: VaultRecord, tx: AcceptedTransaction, point: ChainPoint, network: NetworkBinding): Result<VaultRecord> {
    if !tx.valid || vault.state.ref !in tx.inputs then Ok(vault)
    else
      var redeemer :- ActionOf(tx, vault.state.ref);
      :- Need(redeemer.StateAction?, InvalidShape);
      var state :- SuccessorState(vault, tx, redeemer.state, network);
      Ok(vault.(state := state, deployment := vault.deployment.(chainPoint := point)))
  }

  lemma VisitMeans(p: Projection, policy: Hex, tx: AcceptedTransaction, point: ChainPoint, network: NetworkBinding)
    requires policy in p.vaults && tx.valid && VisitVault(p, policy, tx, point, network).Ok?
    ensures
      var q := VisitVault(p, policy, tx, point, network).value;
      var after := VaultAfter(p.vaults[policy], tx, point, network);
      after.Ok? && q.vaults == p.vaults[policy := after.value]
  {
    hide RecordSettlements, SuccessorState, ActionOf;
  }

  /** Visiting the vaults in order gives each of those visited its own next record, and leaves the others. */
  lemma {:induction false} VisitsMean(
    p: Projection, order: seq<Hex>, k: nat, tx: AcceptedTransaction, point: ChainPoint, network: NetworkBinding, policy: Hex)
    requires k <= |order| && tx.valid && Distinct(order) && policy in p.vaults
    requires VisitVaults(p, order, k, tx, point, network).Ok?
    ensures
      var q := VisitVaults(p, order, k, tx, point, network).value;
      && q.vaults.Keys == p.vaults.Keys
      && (policy in order[..k] ==> VaultAfter(p.vaults[policy], tx, point, network) == Ok(q.vaults[policy]))
      && (policy !in order[..k] ==> q.vaults[policy] == p.vaults[policy])
  {
    hide VisitVault, VaultAfter;
    if k > 0 {
      VisitsMean(p, order, k - 1, tx, point, network, policy);
      var q := VisitVaults(p, order, k - 1, tx, point, network).value;
      assert order[..k] == order[..k - 1] + [order[k - 1]];
      if order[k - 1] in q.vaults {
        VisitMeans(q, order[k - 1], tx, point, network);
      } else {
        AbsentVisit(q, order[k - 1], tx, point, network);
      }
    }
  }

  lemma AbsentVisit(p: Projection, policy: Hex, tx: AcceptedTransaction, point: ChainPoint, network: NetworkBinding)
    requires policy !in p.vaults
    ensures VisitVault(p, policy, tx, point, network) == Ok(p)
  {
  }

  lemma ConsumeKeepsVaults(p: Projection, ref: OutRef, tx: AcceptedTransaction, point: ChainPoint)
    requires Consume(p, ref, tx, point).Ok?
    ensures Consume(p, ref, tx, point).value.vaults == p.vaults
  {
    hide ActionOf, FindOutput, ReceiverIndex;
  }

  lemma {:induction false} ConsumptionKeepsVaults(p: Projection, k: nat, tx: AcceptedTransaction, point: ChainPoint)
    requires k <= |tx.inputs| && ConsumeInputs(p, k, tx, point).Ok?
    ensures ConsumeInputs(p, k, tx, point).value.vaults == p.vaults
  {
    hide Consume;
    if k > 0 {
      ConsumptionKeepsVaults(p, k - 1, tx, point);
      ConsumeKeepsVaults(ConsumeInputs(p, k - 1, tx, point).value, tx.inputs[k - 1], tx, point);
    }
  }

  lemma {:induction false} AdditionsKeepVault(p: Projection, vaults: seq<VaultRecord>, k: nat, selected: Option<set<Hex>>, policy: Hex)
    requires k <= |vaults| && policy in p.vaults && AddVaults(p, vaults, k, selected).Ok?
    ensures
      var q := AddVaults(p, vaults, k, selected).value;
      policy in q.vaults && q.vaults[policy] == p.vaults[policy]
  {
    if k > 0 {
      AdditionsKeepVault(p, vaults, k - 1, selected, policy);
    }
  }

  lemma {:induction false} OutputsKeepVaults(p: Projection, k: nat, tx: AcceptedTransaction, point: ChainPoint, network: NetworkBinding)
    requires k <= |tx.outputs|
    ensures AddOutputs(p, k, tx, point, network).vaults == p.vaults
  {
    hide Recognize;
    if k > 0 {
      OutputsKeepVaults(p, k - 1, tx, point, network);
    }
  }

  /** Whatever else an accepted transaction does, each tracked vault moves exactly as its own State input says. */
  lemma ProjectionMovesVault(
    p: Projection, tx: AcceptedTransaction, point: ChainPoint, network: NetworkBinding, builds: seq<ReviewedBuild>,
    selected: Option<set<Hex>>, policy: Hex)
    requires OrderFits(p) && policy in p.vaults && ProjectTransaction(p, tx, point, network, builds, selected).Ok?
    ensures
      var q := ProjectTransaction(p, tx, point, network, builds, selected).value;
      policy in q.vaults && VaultAfter(p.vaults[policy], tx, point, network) == Ok(q.vaults[policy])
  {
    hide VisitVaults, ConsumeInputs, DiscoverGenesis, AddVaults, AddOutputs, SuccessorState, ActionOf, Recognize;
    var seen := p.(transactions := p.transactions + {tx.id});
    var acted := ProjectActions(seen, tx, point, network, builds, selected).value;
    OutputsKeepVaults(acted.(utxos := acted.utxos - InputSet(tx)), |tx.outputs|, tx, point, network);
    if tx.valid {
      var advanced := VisitVaults(seen, p.order, |p.order|, tx, point, network).value;
      var consumed := ConsumeInputs(advanced, |tx.inputs|, tx, point).value;
      var discovered := DiscoverGenesis(tx, builds, point, network).value;
      assert p.order[..|p.order|] == p.order;
      VisitsMean(seen, p.order, |p.order|, tx, point, network, policy);
      ConsumptionKeepsVaults(advanced, |tx.inputs|, tx, point);
      AdditionsKeepVault(consumed, discovered, |discovered|, selected, policy);
    }
  }

  /** A State step creates, in output 0, the very evidence that its plan promised. */
  lemma CreatedEvidence(w: World, context: Context, tx: LedgerTx, plan: StatePlan, w': World)
    requires SoundStatePlan(w.state, plan, context) && Realizes(w.utxos, tx, plan.plan)
    requires w'.utxos == Apply(w.utxos, tx) && w'.stateRef == OutRef(tx.id, 0) && w'.state == plan.successor
    ensures w'.stateRef in w'.utxos && StateEvidence(w') == PlannedState(plan, context.deployment.policy, tx.id)
  {
    hide ValidEconomics, PriceNotBelow, StateEntries, MintOf, ValueOf, Apply, Token;
    CreatedOutput(w.utxos, tx, 0);
    UpdateIsExact(context, plan.successor);
  }

  /** A step that does not change the State does not spend it. */
  lemma OtherStepsSpareState(w: World, context: Context, step: Step, tx: LedgerTx, w': World)
    requires Inv(w, context) && Next(w, context, step, tx, w') && !ChangesState(step)
    ensures w.stateRef !in tx.inputs && w'.stateRef in w'.utxos && StateEvidence(w') == StateEvidence(w)
  {
    hide SidePlanOf, ValidEconomics, StateEntries, Balanced, Token, EvidenceAgrees, Apply, Nonnegative, Total;
    if !step.WalletStep? {
      SidePlanSparesState(w, context, step);
    }
    NewReferences(w.utxos, tx, w.stateRef);
  }

  /** The plan that a step realizes; ordinary wallet transactions have none. */
  function PlanOf(w: World, context: Context, step: Step): Option<Plan> {
    if ChangesState(step) then
      if w.stateRef in w.utxos && StatePlanOf(w, context, step).Ok? then Some(StatePlanOf(w, context, step).value.plan) else None
    else if SidePlanOf(context, step).Ok? then Some(SidePlanOf(context, step).value)
    else None
  }

  /** The outputs as read are those of the ledger's transaction. */
  predicate ReadsOutputs(read: AcceptedTransaction, tx: LedgerTx) {
    && read.valid && |read.outputs| == |tx.outputs|
    && forall i :: 0 <= i < |tx.outputs| ==>
         && read.outputs[i].ref == OutRef(tx.id, i) && read.outputs[i].content.datum == tx.outputs[i].datum
         && read.outputs[i].content.value == tx.outputs[i].value
  }

  /** The reader is given the ledger's transaction: same identity, inputs and outputs, and its plan's redeemers and addresses. */
  ghost predicate Delivers(w: World, context: Context, event: Event, read: AcceptedTransaction, network: NetworkBinding) {
    && read.id == event.tx.id && Lower(read.id) == read.id && (forall ref :: ref in read.inputs <==> ref in event.tx.inputs)
    && ReadsOutputs(read, event.tx)
    && (PlanOf(w, context, event.step).Some? ==> A.Realizes(read, PlanOf(w, context, event.step).value, network))
  }

  /** A vault that is in sync with the ledger before a step moves, on reading its transaction, to being in sync after it. */
  lemma VaultStaysInSync(
    w: World, context: Context, event: Event, w': World, read: AcceptedTransaction, p: Projection, point: ChainPoint, network: NetworkBinding)
    requires Inv(w, context) && Next(w, context, event.step, event.tx, w')
    requires InSync(w, p, context) && Delivers(w, context, event, read, network)
    ensures
      var after := VaultAfter(p.vaults[context.deployment.policy], read, point, network);
      && after.Ok? && w'.stateRef in w'.utxos && RefId(w'.stateRef) == w'.stateRef && after.value.state == StateEvidence(w')
      && A.SameIdentity(after.value.deployment, context.deployment) && after.value.terms == context.terms
  {
    hide ReadsOutputs, Inv, StatePlanOf, SidePlanOf, Balanced, SoundStatePlan, Lower, EvidenceAgrees, A.Realizes, ActionOf, SuccessorState, Apply;
    if ChangesState(event.step) {
      var action := SuccessorIsDesignated(w, context, event.step, p, read, network);
      StateStepIsSound(w, context, event.step);
      CreatedEvidence(w, context, event.tx, StatePlanOf(w, context, event.step).value, w');
    } else {
      OtherStepsSpareState(w, context, event.step, event.tx, w');
    }
  }
}
