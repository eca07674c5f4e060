/** The reader accepts the ledger: which realized transactions it projects whole, and what it serves along every run. */
module LedgerReading {
  import opened Results
  import opened Types
  import opened HexStrings
  import opened Values
  import opened References
  import opened Quotes
  import opened Planning
  import opened Settlement
  import opened Planners
  import opened Batches
  import opened Ledger
  import opened VaultRuns
  import opened AcceptedTransactions
  import opened Projections
  import opened Projecting
  import opened Lifecycles
  import opened PlannedCustody
  import opened Acceptance
  import opened LedgerAgreement
  import A = Agreement
  import Participation

  /** What the reader is configured with. */
  datatype Reading = Reading(network: NetworkBinding, builds: seq<ReviewedBuild>, selected: Option<set<Hex>>)

  /** One accepted transaction as the reader projected it. */
  datatype Reception = Reception(read: AcceptedTransaction, point: ChainPoint)

  /** Every output that the reader holds unspent is on the ledger with the same datum. */
  ghost predicate UtxosAgree(u: Utxos, p: Projection) {
    forall ref <- p.utxos :: ref in u && p.utxos[ref].content.datum == u[ref].datum
  }

  function PlannedRefs(w: World, context: Context, step: Step): seq<OutRef> {
    var plan := PlanOf(w, context, step);
    if plan.None? then [] else InputRefs(plan.value.inputs)
  }

  /** What the ledger holds at an input that a step's plan names. */
  predicate KindFits(w: World, step: Step, ref: OutRef) {
    && ref in w.utxos && w.utxos[ref].datum.Some?
    && match step
       case BatchStep(_, _, _, _) => ref == w.stateRef || w.utxos[ref].datum.value.RequestDatum?
       case RefundStep(_, _, _) => EnvelopeRecovery(w.utxos[ref].datum.value).Some?
       case DeliverStep(_) => w.utxos[ref].datum.value.ClaimDatum?
       case _ => ref == w.stateRef && ChangesState(step)
  }

  lemma BatchInputsFit(w: World, context: Context, step: Step)
    requires step.BatchStep? && w.stateRef in w.utxos && w.utxos[w.stateRef].datum.Some? && RefId(w.stateRef) == w.stateRef
    requires EvidenceAgrees(w, step) && BuildBatch(OptionsOf(w, context, step), step.requests).Ok?
    ensures
      var plan := BuildBatch(OptionsOf(w, context, step), step.requests).value.plan;
      forall i :: 0 <= i < |plan.inputs| ==> KindFits(w, step, InputRefs(plan.inputs)[i])
  {
    hide BuildBatch, AssembleBatch, ResolveBatch, ResolveState, SortedReferences, Settlements, RefId, Entries, TotalsOf, Distinct, Sorted;
    var options := OptionsOf(w, context, step);
    var batch := BuildBatch(options, step.requests).value;
    var state, sorted := BatchParts(options, step.requests);
    A.BatchInputs(options, state, batch.settled);
    SortedReferencesIsCanonical(step.requests, step.requests, RequestRef);
    A.SettledSources(sorted, context.deployment, state, w.stateRef, context.terms, step.validity.upperPosixMs);
    forall i | 0 < i < |batch.plan.inputs| ensures KindFits(w, step, InputRefs(batch.plan.inputs)[i]) {
      var s := batch.settled[i - 1];
      Participation.BatchHonoursRequests(options, step.requests, s);
      assert sorted[i - 1] in multiset(sorted);
      var j :| 0 <= j < |step.requests| && step.requests[j] == sorted[i - 1];
      assert Agrees(w.utxos, step.requests[j].input);
      assert batch.plan.inputs[i].ref == s.source.ref;
    }
  }

  lemma RefundInputsFit(w: World, context: Context, step: Step)
    requires step.RefundStep? && EvidenceAgrees(w, step) && SidePlanOf(context, step).Ok?
    ensures
      var plan := SidePlanOf(context, step).value;
      forall i :: 0 <= i < |plan.inputs| ==> KindFits(w, step, InputRefs(plan.inputs)[i])
  {
    hide ValidPlan, RecoveryShape, AssertProtectedInput, SameHex, OwnAsset, AssetId, Output, RefId;
  }

  lemma DeliveryInputsFit(w: World, context: Context, step: Step)
    requires step.DeliverStep? && EvidenceAgrees(w, step) && SidePlanOf(context, step).Ok?
    ensures
      var plan := SidePlanOf(context, step).value;
      forall i :: 0 <= i < |plan.inputs| ==> KindFits(w, step, InputRefs(plan.inputs)[i])
  {
    hide BuildDeliverPlan, RefId, SortedReferences, DeliverEntries, Agrees;
    var plan := SidePlanOf(context, step).value;
    var sorted := A.DeliveryParts(context.deployment, step.claims);
    DeliveredKinds(context.deployment, step.claims, sorted);
    forall i | 0 <= i < |plan.inputs| ensures KindFits(w, step, InputRefs(plan.inputs)[i]) {
      assert sorted[i] in multiset(sorted);
      var j :| 0 <= j < |step.claims| && step.claims[j] == sorted[i];
      assert Agrees(w.utxos, step.claims[j]);
      AgreedDatum(w.utxos, sorted[i]);
    }
  }

  lemma AgreedDatum(u: Utxos, input: ProtectedInput)
    requires Agrees(u, input)
    ensures RefId(input.ref) in u && u[RefId(input.ref)].datum == Some(input.datum)
  {
  }

  lemma DeliveredKinds(deployment: Deployment, claims: seq<ProtectedInput>, sorted: seq<ProtectedInput>)
    requires BuildDeliverPlan(deployment, claims).Ok? && SortedReferences(claims, SourceRef) == Ok(sorted)
    ensures forall i :: 0 <= i < |sorted| ==> sorted[i].datum.ClaimDatum?
  {
    hide DeliverOutput, ValidPlan, SortedReferences;
    DeliveredAreClaims(sorted, deployment.claimScript.value);
  }

  /** Planned inputs are on the ledger, each of the kind its plan consumes. */
  lemma PlannedInputsFit(w: World, context: Context, step: Step)
    requires w.stateRef in w.utxos && w.utxos[w.stateRef].datum.Some? && RefId(w.stateRef) == w.stateRef && EvidenceAgrees(w, step)
    ensures forall i :: 0 <= i < |PlannedRefs(w, context, step)| ==> KindFits(w, step, PlannedRefs(w, context, step)[i])
  {
    hide BuildBatch, BuildDirectPlan, CreateCollectFeesPlan, CreateTopUpPlan, CreateSetPausePlan, BuildRequestPlan, RefundPlan,
      BuildDeliverPlan, RefId, KindFits, EvidenceAgrees;
    var plan := PlanOf(w, context, step);
    if plan.Some? {
      match step
      case BatchStep(_, _, _, _) => BatchInputsFit(w, context, step);
      case RefundStep(_, _, _) => RefundInputsFit(w, context, step);
      case DeliverStep(_) => DeliveryInputsFit(w, context, step);
      case RequestStep(request) => RequestSpendsNothing(context, request);
      case WalletStep =>
      case _ =>
        ImmediatePlanFollows(w, context, step);
        StateFits(w, step);
    }
  }

  lemma RequestSpendsNothing(context: Context, request: Request)
    requires BuildRequestPlan(context, request).Ok?
    ensures BuildRequestPlan(context, request).value.inputs == []
  {
    hide ConsistentContext, RequestOf, SameHex, RequestValue, ValidPlan, Output;
  }

  lemma StateFits(w: World, step: Step)
    requires w.stateRef in w.utxos && w.utxos[w.stateRef].datum.Some? && ChangesState(step)
    ensures KindFits(w, step, w.stateRef)
  {
  }

  /**
   * What the feed and the wallet leave to the plan: a new transaction that announces no vault and spends no Config, and
   * whose only tracked inputs are the planned ones.
   */
  ghost predicate Undisturbed(p: Projection, read: AcceptedTransaction, planned: seq<OutRef>) {
    && read.id !in p.transactions && AnnouncesNothing(read)
    && (forall policy <- p.vaults :: p.vaults[policy].deployment.configRef !in read.inputs)
    && forall i :: 0 <= i < |read.inputs| ==> read.inputs[i] in planned || !TrackedLive(p, read.inputs[i])
  }

  /** A pending Request is held on the ledger under a recognized envelope. */
  lemma PendingKind(u: Utxos, p: Projection, ref: OutRef)
    requires Lifecycle(p) && UtxosAgree(u, p) && IsPending(p, ref)
    ensures TrackedLive(p, ref) && ref in u && u[ref].datum.Some? && EnvelopeRecovery(u[ref].datum.value).Some?
  {
    hide ClaimLinked, VaultLinked, OrderFits, SeenIn, StatusFits;
    assert RequestLinked(p, ref, p.utxos, {});
  }

  /** A tracked Claim that the feed spends is undelivered, and held on the ledger as a Claim. */
  lemma ClaimKind(u: Utxos, p: Projection, read: AcceptedTransaction, ref: OutRef)
    requires Lifecycle(p) && UtxosAgree(u, p) && FeedOk(p, read) && ref in p.claims && ref in read.inputs
    ensures TrackedLive(p, ref) && ref in u && u[ref].datum.Some? && u[ref].datum.value.ClaimDatum?
    ensures p.claims[ref].request in p.requests
  {
    hide RequestLinked, VaultLinked, OrderFits, UnsignedOutput;
    assert ClaimLinked(p, ref, p.utxos, {});
  }

  /** Another vault's State is held on the ledger as that vault's. */
  lemma StateKind(u: Utxos, p: Projection, policy: Hex)
    requires Lifecycle(p) && UtxosAgree(u, p) && policy in p.vaults
    ensures
      var ref := p.vaults[policy].state.ref;
      && TrackedLive(p, ref) && ref in u && u[ref].datum.Some? && u[ref].datum.value.StateDatum?
      && u[ref].datum.value.state.vaultPolicy == policy
      && u[ref].datum == Some(p.vaults[policy].state.datum)
  {
    hide RequestLinked, ClaimLinked, OrderFits, UnsignedOutput, SeenIn;
    assert VaultLinked(p, policy, p.utxos);
  }

  /** Everything a step's acceptance rests on besides its own Requests. */
  ghost predicate Receives(
    w: World, context: Context, event: Event, read: AcceptedTransaction, p: Projection, network: NetworkBinding) {
    && InSync(w, p, context) && UtxosAgree(w.utxos, p) && Lifecycle(p)
    && Delivers(w, context, event, read, network) && EvidenceAgrees(w, event.step)
    && FeedOk(p, read) && Undisturbed(p, read, PlannedRefs(w, context, event.step))
  }

  /** An input that the reader tracks is one that the plan names, and is of a kind that its step consumes. */
  lemma TrackedIsPlanned(
    w: World, context: Context, event: Event, read: AcceptedTransaction, p: Projection, network: NetworkBinding, ref: OutRef)
    requires Receives(w, context, event, read, p, network) && ref in read.inputs && TrackedLive(p, ref)
    ensures ref in PlannedRefs(w, context, event.step) && KindFits(w, event.step, ref)
  {
    hide Lifecycle, UtxosAgree, Delivers, FeedOk, TrackedLive, PlannedRefs, KindFits, EvidenceAgrees, AnnouncesNothing, Lower;
    StateIsHeld(w, p, context);
    PlannedInputsFit(w, context, event.step);
    var i :| 0 <= i < |read.inputs| && read.inputs[i] == ref;
  }

  lemma StateIsHeld(w: World, p: Projection, context: Context)
    requires InSync(w, p, context) && Lifecycle(p) && UtxosAgree(w.utxos, p)
    ensures w.utxos[w.stateRef].datum == Some(StateDatum(w.state)) && w.state.vaultPolicy == context.deployment.policy
  {
    hide Lifecycle, UtxosAgree;
    StateKind(w.utxos, p, context.deployment.policy);
  }

  lemma PendingInputFits(
    w: World, context: Context, event: Event, read: AcceptedTransaction, p: Projection, network: NetworkBinding, ref: OutRef)
    requires Receives(w, context, event, read, p, network) && ref in read.inputs && IsPending(p, ref)
    ensures ref in PlannedRefs(w, context, event.step) && ref != w.stateRef && (event.step.RefundStep? || event.step.BatchStep?)
  {
    hide Lifecycle, UtxosAgree, Delivers, FeedOk, TrackedLive, PlannedRefs, EvidenceAgrees, Undisturbed, IsPending;
    PendingKind(w.utxos, p, ref);
    StateIsHeld(w, p, context);
    TrackedIsPlanned(w, context, event, read, p, network, ref);
  }

  lemma ClaimInputFits(
    w: World, context: Context, event: Event, read: AcceptedTransaction, p: Projection, network: NetworkBinding, ref: OutRef)
    requires Receives(w, context, event, read, p, network) && ref in read.inputs && ref in p.claims
    ensures ref in PlannedRefs(w, context, event.step) && event.step.DeliverStep? && p.claims[ref].request in p.requests
  {
    hide Lifecycle, UtxosAgree, Delivers, FeedOk, TrackedLive, PlannedRefs, EvidenceAgrees, Undisturbed;
    ClaimKind(w.utxos, p, read, ref);
    StateIsHeld(w, p, context);
    TrackedIsPlanned(w, context, event, read, p, network, ref);
  }

  lemma OtherVaultsAreSpared(
    w: World, context: Context, event: Event, read: AcceptedTransaction, p: Projection, network: NetworkBinding, other: Hex)
    requires Receives(w, context, event, read, p, network) && other in p.vaults && other != context.deployment.policy
    ensures Spares(p.vaults[other], read)
  {
    hide Lifecycle, UtxosAgree, Delivers, FeedOk, TrackedLive, PlannedRefs, EvidenceAgrees;
    StateKind(w.utxos, p, other);
    StateIsHeld(w, p, context);
    if p.vaults[other].state.ref in read.inputs {
      TrackedIsPlanned(w, context, event, read, p, network, p.vaults[other].state.ref);
    }
  }

  lemma RefundStepIsDirected(context: Context, step: Step, read: AcceptedTransaction, network: NetworkBinding, ref: OutRef)
    requires step.RefundStep? && SidePlanOf(context, step).Ok? && A.Realizes(read, SidePlanOf(context, step).value, network)
    requires ref in InputRefs(SidePlanOf(context, step).value.inputs)
    ensures RefundDirected(read, ref)
  {
    hide RecoveryOf, AssertFamily, AssertProtectedInput, FiniteValidity, SameHex, Output, ValidPlan, Qty, OwnAsset, AssetId, RefId;
    var plan := SidePlanOf(context, step).value;
    assert plan.inputs[0] == PlanInput(step.source.ref, RequestInput, Some(RequestAction(Refund(step.mode, 0))));
    A.FindOutputAt(read.outputs, 0, read.id, 0);
  }

  lemma EmittedIsFound(read: AcceptedTransaction, plan: Plan, network: NetworkBinding, i: nat)
    requires A.Realizes(read, plan, network) && i < |plan.outputs|
    ensures FindOutput(read.outputs, i).Some?
  {
    hide A.Realizes, A.Onchain, FindOutput;
    A.RealizedEmits(read, plan, network);
    A.FindOutputAt(read.outputs, 0, read.id, i);
  }

  lemma EntryNamesOutput(sorted: seq<ProtectedInput>, i: nat)
    requires i < |sorted| && forall j, k :: 0 <= j < k < |sorted| ==> RefId(sorted[j].ref) != RefId(sorted[k].ref)
    ensures ReceiverIndex(DeliverEntries(sorted), RefId(sorted[i].ref)) == Some(i)
  {
    hide RefId, ReceiverIndex;
    A.ReceiverIndexAt(sorted, DeliverEntries(sorted), 0, i);
  }

  lemma DeliverStepIsDirected(context: Context, step: Step, read: AcceptedTransaction, network: NetworkBinding, ref: OutRef)
    requires step.DeliverStep? && SidePlanOf(context, step).Ok? && A.Realizes(read, SidePlanOf(context, step).value, network)
    requires ref in InputRefs(SidePlanOf(context, step).value.inputs)
    ensures DeliveryDirected(read, ref)
  {
    hide BuildDeliverPlan, RefId, ReceiverIndex, SortableReferences, SortItems, DeliverEntries, FindOutput, A.Emits;
    var plan := SidePlanOf(context, step).value;
    var sorted := A.DeliveryParts(context.deployment, step.claims);
    var i :| 0 <= i < |plan.inputs| && InputRefs(plan.inputs)[i] == ref;
    EntryNamesOutput(sorted, i);
    EmittedIsFound(read, plan, network, i);
    assert plan.inputs[i] == PlanInput(sorted[i].ref, ClaimInput, Some(ClaimAction(Deliver(DeliverEntries(sorted)))));
  }

  lemma PlanIsRealized(
    w: World, context: Context, event: Event, read: AcceptedTransaction, p: Projection, network: NetworkBinding, ref: OutRef)
    requires Receives(w, context, event, read, p, network) && ref in PlannedRefs(w, context, event.step)
    ensures PlanOf(w, context, event.step).Some? && A.Realizes(read, PlanOf(w, context, event.step).value, network)
    ensures ref in InputRefs(PlanOf(w, context, event.step).value.inputs)
  {
    hide InSync, Lifecycle, UtxosAgree, FeedOk, Undisturbed, EvidenceAgrees, ReadsOutputs, A.Realizes, Lower, StatePlanOf, SidePlanOf;
  }

  /** Unless it settles, a step leaves each tracked record that it spends directed. */
  lemma UnsettledIsDirected(
    w: World, context: Context, event: Event, read: AcceptedTransaction, p: Projection, q: Projection, network: NetworkBinding)
    requires Receives(w, context, event, read, p, network) && !event.step.BatchStep?
    requires q.requests == p.requests && q.claims == p.claims
    ensures Directed(q, read)
  {
    hide Receives, RefundDirected, DeliveryDirected, PlannedRefs, StatePlanOf, SidePlanOf, A.Realizes;
    forall i | 0 <= i < |read.inputs| && IsPending(q, read.inputs[i]) ensures RefundDirected(read, read.inputs[i]) {
      var ref := read.inputs[i];
      PendingInputFits(w, context, event, read, p, network, ref);
      PlanIsRealized(w, context, event, read, p, network, ref);
      RefundStepIsDirected(context, event.step, read, network, ref);
    }
    forall i | 0 <= i < |read.inputs| && read.inputs[i] in q.claims
      ensures DeliveryDirected(read, read.inputs[i]) && q.claims[read.inputs[i]].request in q.requests
    {
      var ref := read.inputs[i];
      ClaimInputFits(w, context, event, read, p, network, ref);
      PlanIsRealized(w, context, event, read, p, network, ref);
      DeliverStepIsDirected(context, event.step, read, network, ref);
    }
  }

  /** A batch names its State first, and then the Requests it settles. */
  lemma BatchRefs(w: World, context: Context, step: Step, ref: OutRef)
    requires step.BatchStep? && w.stateRef in w.utxos && RefId(w.stateRef) == w.stateRef
    requires BuildBatch(OptionsOf(w, context, step), step.requests).Ok?
    requires ref in PlannedRefs(w, context, step) && ref != w.stateRef
    ensures
      var settled := BuildBatch(OptionsOf(w, context, step), step.requests).value.settled;
      exists i :: 0 <= i < |settled| && ref == A.KeyOfSettled(settled[i])
  {
    hide BuildBatch, AssembleBatch, ResolveBatch, ResolveState, SortedReferences, Settlements, RefId, Entries, TotalsOf, Distinct;
    var options := OptionsOf(w, context, step);
    var batch := BuildBatch(options, step.requests).value;
    var state, sorted := BatchParts(options, step.requests);
    A.BatchInputs(options, state, batch.settled);
    var i :| 0 <= i < |batch.plan.inputs| && InputRefs(batch.plan.inputs)[i] == ref;
    assert i > 0;
    assert ref == A.KeyOfSettled(batch.settled[i - 1]);
  }

  /** A batch leaves nothing that it spends to be refunded or delivered. */
  lemma SettledIsDirected(
    w: World, context: Context, event: Event, read: AcceptedTransaction, p: Projection, q: Projection, point: ChainPoint,
    network: NetworkBinding)
    requires Receives(w, context, event, read, p, network) && event.step.BatchStep?
    requires BuildBatch(OptionsOf(w, context, event.step), event.step.requests).Ok?
    requires
      var settled := BuildBatch(OptionsOf(w, context, event.step), event.step.requests).value.settled;
      && A.RequestsRecorded(p.requests, q.requests, settled, |settled|, read, w.stateRef, point)
      && A.ClaimsRecorded(p.claims, q.claims, settled, |settled|, read)
    ensures Directed(q, read)
  {
    hide BuildBatch, RefundDirected, DeliveryDirected, PlannedRefs, A.KeyOfSettled, A.RequestsRecorded, A.ClaimsRecorded, Lifecycle,
      UtxosAgree, Delivers, EvidenceAgrees, Undisturbed, IsPending, FeedOk;
    var settled := BuildBatch(OptionsOf(w, context, event.step), event.step.requests).value.settled;
    forall i | 0 <= i < |read.inputs| ensures !IsPending(q, read.inputs[i]) && read.inputs[i] !in q.claims {
      SettledLeavesNonePending(w, context, event, read, p, q, point, network, read.inputs[i]);
      SettledClaimsAreNew(w, context, event, read, p, q, network, read.inputs[i]);
    }
  }

  lemma SettledLeavesNonePending(
    w: World, context: Context, event: Event, read: AcceptedTransaction, p: Projection, q: Projection, point: ChainPoint,
    network: NetworkBinding, ref: OutRef)
    requires Receives(w, context, event, read, p, network) && event.step.BatchStep? && ref in read.inputs
    requires BuildBatch(OptionsOf(w, context, event.step), event.step.requests).Ok?
    requires
      var settled := BuildBatch(OptionsOf(w, context, event.step), event.step.requests).value.settled;
      A.RequestsRecorded(p.requests, q.requests, settled, |settled|, read, w.stateRef, point)
    ensures !IsPending(q, ref)
  {
    hide BuildBatch, PlannedRefs, A.KeyOfSettled, Lifecycle, UtxosAgree, Delivers, EvidenceAgrees, Undisturbed, FeedOk;
    var settled := BuildBatch(OptionsOf(w, context, event.step), event.step.requests).value.settled;
    if IsPending(q, ref) {
      if forall i :: 0 <= i < |settled| ==> ref != A.KeyOfSettled(settled[i]) {
        assert IsPending(p, ref);
        PendingInputFits(w, context, event, read, p, network, ref);
        BatchRefs(w, context, event.step, ref);
        assert false;
      }
    }
  }

  lemma SettledClaimsAreNew(
    w: World, context: Context, event: Event, read: AcceptedTransaction, p: Projection, q: Projection, network: NetworkBinding,
    ref: OutRef)
    requires Receives(w, context, event, read, p, network) && event.step.BatchStep? && ref in read.inputs
    requires BuildBatch(OptionsOf(w, context, event.step), event.step.requests).Ok?
    requires
      var settled := BuildBatch(OptionsOf(w, context, event.step), event.step.requests).value.settled;
      A.ClaimsRecorded(p.claims, q.claims, settled, |settled|, read)
    ensures ref !in q.claims
  {
    hide BuildBatch, PlannedRefs, A.KeyOfSettled, Lifecycle, UtxosAgree, Delivers, EvidenceAgrees, Undisturbed, TrackedLive;
    var settled := BuildBatch(OptionsOf(w, context, event.step), event.step.requests).value.settled;
    assert ref.txId != read.id;
    assert A.SameClaim(p.claims, q.claims, ref);
    if ref in p.claims {
      ClaimInputFits(w, context, event, read, p, network, ref);
    }
  }

  function Seen(p: Projection, read: AcceptedTransaction): Projection {
    p.(transactions := p.transactions + {read.id})
  }

  /** Visiting the vault of a step that is not a batch succeeds and leaves every record alone. */
  lemma UnsettledVisit(
    w: World, context: Context, event: Event, w': World, read: AcceptedTransaction, p: Projection, point: ChainPoint,
    network: NetworkBinding)
    requires Receives(w, context, event, read, p, network) && !event.step.BatchStep?
    requires Inv(w, context) && Next(w, context, event.step, event.tx, w')
    ensures
      var visited := VisitVault(Seen(p, read), context.deployment.policy, read, point, network);
      && visited.Ok? && visited.value.requests == p.requests && visited.value.claims == p.claims
  {
    hide Inv, Lifecycle, UtxosAgree, FeedOk, TrackedLive, AnnouncesNothing, ReadsOutputs, EvidenceAgrees, StatePlanOf, SidePlanOf,
      SuccessorState, ActionOf, Lower, A.Realizes, SoundStatePlan, Balanced, Apply, A.SameIdentity, RecordSettlements, Realizes;
    if ChangesState(event.step) {
      var action := SuccessorIsDesignated(w, context, event.step, p, read, network);
    } else {
      OtherStepsSpareState(w, context, event.step, event.tx, w');
    }
  }

  /** The projection tracks a batch of the vault it is in sync with, whenever it was last seen. */
  lemma SyncIsTracked(w: World, context: Context, step: Step, p: Projection, read: AcceptedTransaction)
    requires InSync(w, p, context) && Lifecycle(p) && step.BatchStep? && context.deployment.claimScript.Some?
    ensures A.Tracks(Seen(p, read), context.deployment.policy, OptionsOf(w, context, step))
  {
    hide ClaimLinked, VaultLinked, OrderFits, SeenIn, Lower, StatusFits, RequestOfSource;
    forall k <- p.requests ensures p.requests[k].ref == k {
      assert RequestLinked(p, k, p.utxos, {});
    }
  }

  lemma BatchPlanOf(w: World, context: Context, step: Step)
    requires w.stateRef in w.utxos && step.BatchStep? && StatePlanOf(w, context, step).Ok?
    ensures BuildBatch(OptionsOf(w, context, step), step.requests).Ok?
    ensures PlanOf(w, context, step) == Some(BuildBatch(OptionsOf(w, context, step), step.requests).value.plan)
  {
    hide BuildBatch;
  }

  /** Visiting the vault of a batch succeeds when its Requests are pending, and leaves nothing undirected. */
  lemma PendingBatchVisit(
    w: World, context: Context, event: Event, read: AcceptedTransaction, p: Projection, point: ChainPoint, network: NetworkBinding)
    requires Receives(w, context, event, read, p, network) && event.step.BatchStep? && StatePlanOf(w, context, event.step).Ok?
    requires A.Pending(p, event.step.requests)
    ensures
      var visited := VisitVault(Seen(p, read), context.deployment.policy, read, point, network);
      visited.Ok? && Directed(visited.value, read)
  {
    hide Lifecycle, UtxosAgree, FeedOk, TrackedLive, AnnouncesNothing, ReadsOutputs, EvidenceAgrees, StatePlanOf, Lower, A.Realizes,
      BuildBatch, AdvanceState, A.Tracks, A.KeyOfSettled, Directed, A.RequestsRecorded, A.ClaimsRecorded, PlannedRefs;
    var policy, options := context.deployment.policy, OptionsOf(w, context, event.step);
    BatchPlanOf(w, context, event.step);
    var state := A.BatchIsPlanned(options, event.step.requests);
    SyncIsTracked(w, context, event.step, p, read);
    A.PlannedBatchIsRecorded(options, event.step.requests, Seen(p, read), policy, read, point, network);
    StateIsSpent(w, context, event, read, p, network);
    var q := AdvanceState(Seen(p, read), policy, read, point, network).value;
    SettledIsDirected(w, context, event, read, p, q, point, network);
  }

  lemma StateIsSpent(w: World, context: Context, event: Event, read: AcceptedTransaction, p: Projection, network: NetworkBinding)
    requires Receives(w, context, event, read, p, network) && event.step.BatchStep? && StatePlanOf(w, context, event.step).Ok?
    ensures w.stateRef in read.inputs
  {
    hide Lifecycle, UtxosAgree, FeedOk, Undisturbed, ReadsOutputs, EvidenceAgrees, StatePlanOf, Lower, A.Realizes;
    var action := SuccessorIsDesignated(w, context, event.step, p, read, network);
  }

  /** The redeemer of a realized batch lists its own settlements. */
  lemma BatchAction(w: World, context: Context, step: Step, read: AcceptedTransaction, network: NetworkBinding)
    returns (action: StateRedeemer)
    requires w.stateRef in w.utxos && RefId(w.stateRef) == w.stateRef && step.BatchStep?
    requires BuildBatch(OptionsOf(w, context, step), step.requests).Ok?
    requires A.Realizes(read, BuildBatch(OptionsOf(w, context, step), step.requests).value.plan, network)
    ensures ActionOf(read, w.stateRef) == Ok(StateAction(action)) && action.Batch?
    ensures action.entries == Entries(BuildBatch(OptionsOf(w, context, step), step.requests).value.settled)
  {
    hide BuildBatch, A.Realizes, PlansClaims, StateValue, HoldsExactly, A.Follows, Entries, RefId, ActionOf;
    var plan := BuildBatch(OptionsOf(w, context, step), step.requests).value.plan;
    var state := A.BatchIsPlanned(OptionsOf(w, context, step), step.requests);
    action := plan.inputs[0].redeemer.value.state;
    A.RealizedAction(read, plan, network, w.stateRef, action);
  }

  /** The settlements of a batch are of all the Requests submitted to it. */
  lemma AllAreSettled(options: BatchOptions, requests: seq<BatchRequest>, j: nat)
    requires BuildBatch(options, requests).Ok? && j < |requests|
    ensures
      var settled := BuildBatch(options, requests).value.settled;
      exists i :: 0 <= i < |settled| && settled[i].source == requests[j].input
  {
    hide BuildBatch, AssembleBatch, ResolveBatch, ResolveState, SortedReferences, Settlements, TotalsOf, Sorted;
    var settled := BuildBatch(options, requests).value.settled;
    var state, sorted := BatchParts(options, requests);
    SortedReferencesIsCanonical(requests, requests, RequestRef);
    A.SettledSources(sorted, options.context.deployment, state, options.stateInput.ref, options.context.terms,
      options.validity.upperPosixMs);
    assert requests[j] in multiset(requests);
    assert requests[j] in multiset(sorted);
    var i :| 0 <= i < |sorted| && sorted[i] == requests[j];
    assert settled[i].source == requests[j].input;
  }

  lemma VisitedBatchWasPending(
    w: World, context: Context, event: Event, read: AcceptedTransaction, p: Projection, point: ChainPoint, network: NetworkBinding)
    requires Receives(w, context, event, read, p, network) && event.step.BatchStep? && StatePlanOf(w, context, event.step).Ok?
    requires VisitVault(Seen(p, read), context.deployment.policy, read, point, network).Ok?
    ensures A.Pending(p, event.step.requests)
  {
    hide Lifecycle, UtxosAgree, FeedOk, TrackedLive, AnnouncesNothing, ReadsOutputs, EvidenceAgrees, StatePlanOf, Lower, A.Realizes,
      BuildBatch, SuccessorState, ActionOf, RecordSettlements, PlannedRefs, RefId, A.SameIdentity;
    var requests, options := event.step.requests, OptionsOf(w, context, event.step);
    BatchPlanOf(w, context, event.step);
    var settled := BuildBatch(options, requests).value.settled;
    StateIsSpent(w, context, event, read, p, network);
    var action := BatchAction(w, context, event.step, read, network);
    var vault := p.vaults[context.deployment.policy];
    assert RecordSettlements(Seen(p, read), vault, read, action.entries, |action.entries|, point, network).Ok?;
    SettledWerePending(Seen(p, read), vault, read, action.entries, |action.entries|, point, network, w.stateRef);
    forall j | 0 <= j < |requests| ensures IsPending(p, RefId(requests[j].input.ref)) {
      AllAreSettled(options, requests, j);
      var i :| 0 <= i < |settled| && settled[i].source == requests[j].input;
      assert action.entries[i].requestRef == requests[j].input.ref;
    }
  }

  /**
   * Acceptance, whole and exact: where the projection is in sync and nothing else that it tracks is disturbed, the reader
   * accepts a realized step of the ledger, whatever its kind, if and only if each Request that it settles is one the
   * reader tracks as pending. Refunds, deliveries, new escrow, immediate operations and maintenance are always accepted.
   */
  lemma RealizedStepIsAccepted(
    w: World, context: Context, event: Event, w': World, read: AcceptedTransaction, p: Projection, point: ChainPoint, reading: Reading)
    requires Inv(w, context) && Next(w, context, event.step, event.tx, w')
    requires Receives(w, context, event, read, p, reading.network)
    ensures ProjectTransaction(p, read, point, reading.network, reading.builds, reading.selected).Ok?
       <==> (event.step.BatchStep? ==> A.Pending(p, event.step.requests))
  {
    hide Inv, UtxosAgree, FeedOk, TrackedLive, AnnouncesNothing, EvidenceAgrees, StatePlanOf, SidePlanOf, VisitVault, Lower, A.Realizes,
      Balanced, Apply, A.Pending, Directed, ProjectTransaction, Spares, PlannedRefs, RequestLinked, ClaimLinked, VaultLinked, SeenIn;
    var policy := context.deployment.policy;
    forall other | other in p.vaults && other != policy ensures Spares(p.vaults[other], read) {
      OtherVaultsAreSpared(w, context, event, read, p, reading.network, other);
    }
    var visited := VisitVault(Seen(p, read), policy, read, point, reading.network);
    if event.step.BatchStep? {
      if A.Pending(p, event.step.requests) {
        PendingBatchVisit(w, context, event, read, p, point, reading.network);
      } else if visited.Ok? {
        VisitedBatchWasPending(w, context, event, read, p, point, reading.network);
        assert false;
      }
    } else {
      UnsettledVisit(w, context, event, w', read, p, point, reading.network);
      UnsettledIsDirected(w, context, event, read, p, visited.value, reading.network);
    }
    AcceptedByVisit(p, policy, read, point, reading.network, reading.builds, reading.selected);
  }

  lemma {:induction false} AddedUtxos(p: Projection, k: nat, tx: AcceptedTransaction, point: ChainPoint, network: NetworkBinding, ref: OutRef)
    requires k <= |tx.outputs| && ref in AddOutputs(p, k, tx, point, network).utxos
    ensures
      var held := AddOutputs(p, k, tx, point, network).utxos[ref];
      || (exists i :: 0 <= i < k && ref == tx.outputs[i].ref && held == tx.outputs[i])
      || (ref in p.utxos && held == p.utxos[ref])
  {
    hide Recognize;
    if k > 0 {
      var last := tx.outputs[k - 1];
      if ref != last.ref {
        AddedUtxos(p, k - 1, tx, point, network, ref);
      }
    }
  }

  /** What the projection holds after a transaction: an output of its own, or an unspent one from before. */
  lemma ProjectedUtxos(p: Projection, read: AcceptedTransaction, point: ChainPoint, reading: Reading, ref: OutRef)
    requires ProjectTransaction(p, read, point, reading.network, reading.builds, reading.selected).Ok?
    requires ref in ProjectTransaction(p, read, point, reading.network, reading.builds, reading.selected).value.utxos
    ensures
      var held := ProjectTransaction(p, read, point, reading.network, reading.builds, reading.selected).value.utxos[ref];
      || (exists i :: 0 <= i < |read.outputs| && ref == read.outputs[i].ref && held == read.outputs[i])
      || (ref in p.utxos && ref !in read.inputs && held == p.utxos[ref])
  {
    hide ProjectActions, AddOutputs;
    ActionsKeepUtxos(Seen(p, read), read, point, reading.network, reading.builds, reading.selected);
    var acted := ProjectActions(Seen(p, read), read, point, reading.network, reading.builds, reading.selected).value;
    AddedUtxos(acted.(utxos := acted.utxos - InputSet(read)), |read.outputs|, read, point, reading.network, ref);
  }

  /** The reader's unspent outputs keep agreeing with the ledger's. */
  lemma UtxosStayAgreed(u: Utxos, tx: LedgerTx, read: AcceptedTransaction, p: Projection, point: ChainPoint, reading: Reading)
    requires UtxosAgree(u, p) && Balanced(u, tx) && read.id == tx.id && ReadsOutputs(read, tx)
    requires forall ref :: ref in read.inputs <==> ref in tx.inputs
    requires ProjectTransaction(p, read, point, reading.network, reading.builds, reading.selected).Ok?
    ensures UtxosAgree(Apply(u, tx), ProjectTransaction(p, read, point, reading.network, reading.builds, reading.selected).value)
  {
    hide ProjectTransaction, Balanced, Apply;
    var q := ProjectTransaction(p, read, point, reading.network, reading.builds, reading.selected).value;
    forall ref | ref in q.utxos ensures ref in Apply(u, tx) && q.utxos[ref].content.datum == Apply(u, tx)[ref].datum {
      ProjectedUtxos(p, read, point, reading, ref);
      if i :| 0 <= i < |read.outputs| && ref == read.outputs[i].ref && q.utxos[ref] == read.outputs[i] {
        CreatedOutput(u, tx, i);
      } else {
        NewReferences(u, tx, ref);
      }
    }
  }

  /** The projection follows the ledger: the vault's State, the unspent outputs, and the links between records. */
  ghost predicate Following(w: World, p: Projection, context: Context) {
    InSync(w, p, context) && UtxosAgree(w.utxos, p) && Lifecycle(p)
  }

  /** Whatever realized transaction a following reader accepts, it is following afterwards. */
  lemma AcceptedIsFollowed(
    w: World, context: Context, event: Event, w': World, received: Reception, p: Projection, reading: Reading)
    requires Inv(w, context) && Next(w, context, event.step, event.tx, w') && Following(w, p, context)
    requires Delivers(w, context, event, received.read, reading.network) && FeedOk(p, received.read)
    requires ProjectTransaction(p, received.read, received.point, reading.network, reading.builds, reading.selected).Ok?
    ensures Following(w',
      ProjectTransaction(p, received.read, received.point, reading.network, reading.builds, reading.selected).value, context)
  {
    hide Inv, ProjectTransaction, VaultAfter, Lower, RefId, FeedOk, SeenIn, RequestLinked, ClaimLinked, VaultLinked, Balanced, Apply,
      EvidenceAgrees, PlanOf, ReadsOutputs, UtxosAgree, A.SameIdentity, Realizes, StatePlanOf, SidePlanOf;
    var Reception(read, point) := received;
    VaultStaysInSync(w, context, event, w', read, p, point, reading.network);
    ProjectionMovesVault(p, read, point, reading.network, reading.builds, reading.selected, context.deployment.policy);
    ProjectTransactionKeepsLifecycle(p, read, point, reading.network, reading.builds, reading.selected);
    UtxosStayAgreed(w.utxos, event.tx, read, p, point, reading);
  }

  /** The reader's next projection: what the transaction makes of it, or what it was when it refuses. */
  function Received(p: Projection, received: Reception, reading: Reading): Projection {
    var projected := ProjectTransaction(p, received.read, received.point, reading.network, reading.builds, reading.selected);
    if projected.Ok? then projected.value else p
  }

  /** One transaction of the ledger as the feed delivers it; a batch settles Requests that the reader has seen. */
  ghost predicate Feeds(w: World, context: Context, event: Event, received: Reception, p: Projection, reading: Reading) {
    && Delivers(w, context, event, received.read, reading.network) && FeedOk(p, received.read)
    && Undisturbed(p, received.read, PlannedRefs(w, context, event.step))
    && (event.step.BatchStep? ==> A.Pending(p, event.step.requests))
  }

  /** A run of the ledger, and the projections of a reader that is fed each of its transactions. */
  ghost predicate ReadRun(
    worlds: seq<World>, events: seq<Event>, received: seq<Reception>, ps: seq<Projection>, context: Context, reading: Reading) {
    && Run(worlds, events, context) && |received| == |events| && |ps| == |worlds|
    && forall i :: 0 <= i < |events| ==>
         && Feeds(worlds[i], context, events[i], received[i], ps[i], reading)
         && ps[i + 1] == Received(ps[i], received[i], reading)
  }

  /** A following reader accepts what it is fed, and follows on. */
  lemma FedIsFollowed(
    w: World, context: Context, event: Event, w': World, received: Reception, p: Projection, reading: Reading)
    requires Inv(w, context) && Next(w, context, event.step, event.tx, w')
    requires Following(w, p, context) && Feeds(w, context, event, received, p, reading)
    ensures ProjectTransaction(p, received.read, received.point, reading.network, reading.builds, reading.selected).Ok?
    ensures Following(w', Received(p, received, reading), context)
  {
    hide Inv, ProjectTransaction, InSync, UtxosAgree, Lifecycle, Delivers, FeedOk, Undisturbed, PlannedRefs, A.Pending, EvidenceAgrees,
      StatePlanOf, SidePlanOf, Balanced, Apply, Realizes;
    RealizedStepIsAccepted(w, context, event, w', received.read, p, received.point, reading);
    AcceptedIsFollowed(w, context, event, w', received, p, reading);
  }

  /** Along every run, the reader accepts each transaction, and what it has projected of the vault is what the ledger holds. */
  lemma {:induction false} ReaderFollowsLedger(
    worlds: seq<World>, events: seq<Event>, received: seq<Reception>, ps: seq<Projection>, context: Context, reading: Reading, j: nat)
    requires ReadRun(worlds, events, received, ps, context, reading) && j <= |events|
    requires Inv(worlds[0], context) && Following(worlds[0], ps[0], context)
    ensures Inv(worlds[j], context) && Following(worlds[j], ps[j], context)
    ensures forall i :: 0 <= i < j ==>
      ProjectTransaction(ps[i], received[i].read, received[i].point, reading.network, reading.builds, reading.selected) == Ok(ps[i + 1])
  {
    hide Inv, Following, Next, Feeds, ProjectTransaction;
    RunsKeepInv(worlds, events, context, j);
    if j > 0 {
      RunsKeepInv(worlds, events, context, j - 1);
      ReaderFollowsLedger(worlds, events, received, ps, context, reading, j - 1);
      FedIsFollowed(worlds[j - 1], context, events[j - 1], worlds[j], received[j - 1], ps[j - 1], reading);
    }
  }

  /** So the supply and backing it serves are true: the supply is all SHARE there is, and the State output backs it exactly. */
  lemma ServedStateIsTrue(
    worlds: seq<World>, events: seq<Event>, received: seq<Reception>, ps: seq<Projection>, context: Context, reading: Reading, j: nat)
    requires ReadRun(worlds, events, received, ps, context, reading) && j <= |events|
    requires Inv(worlds[0], context) && Following(worlds[0], ps[0], context)
    ensures
      var policy := context.deployment.policy;
      && policy in ps[j].vaults
      && var served := ps[j].vaults[policy].state;
         && served.datum.StateDatum? && served.ref in worlds[j].utxos && worlds[j].utxos[served.ref].value == served.value
         && served.datum.state.economicSupply == Total(worlds[j].utxos, Token(context, ShareToken))
         && forall a :: Qty(served.value, a) == EntrySum(StateEntries(served.datum.state, context.terms), a)
  {
    hide ReadRun, Lifecycle, Token, Nonnegative, StateEntries, ValidEconomics, Total, Lower, RefId, EntrySum, Qty, UtxosAgree,
      ProjectTransaction, A.SameIdentity;
    ReaderFollowsLedger(worlds, events, received, ps, context, reading, j);
  }
}
