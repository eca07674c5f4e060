/** Genesis planner and reader agree: a realized genesis plan is discovered as the vault that was planned. */
module GenesisAgreement {
  import opened Results
  import opened Types
  import opened Arithmetic
  import opened HexStrings
  import opened Values
  import opened References
  import opened Quotes
  import opened Planning
  import opened Planners
  import opened AcceptedTransactions
  import opened Projections
  import opened PlannedCustody
  import opened Projecting
  import opened Agreement
  import L = Ledger
  import V = VaultRuns
  import opened Lifecycles
  import opened Acceptance
  import opened Sums
  import LedgerAgreement
  import R = LedgerReading

  /** A reviewed build, network and point that stand behind a planning context, with canonical identifiers. */
  predicate Backs(build: ReviewedBuild, network: NetworkBinding, point: ChainPoint, family: Family, context: Context, seed: OutRef) {
    var d := context.deployment;
    && build.family == family && build.buildId == d.buildId && build.configLock == d.configLock
    && d.claimScript == (if family.Ctvs1? then None else build.claimScript)
    && build.template(seed, d.termsHash) == d.policy
    && network.name == d.network && network.domain == d.networkDomain == context.terms.networkDomain
    && Lower(d.policy) == d.policy && Lower(d.configLock) == d.configLock
    && (d.claimScript.Some? ==> Lower(d.claimScript.value) == d.claimScript.value)
    && IsQuantity(point.slot) && ParseHexOf(point.blockHash, 32).Ok?
  }

  /** No output after the planned ones holds exactly one STATE token. */
  predicate OnlyPlannedState(tx: AcceptedTransaction, policy: Hex) {
    forall i :: 2 <= i < |tx.outputs| ==> Qty(tx.outputs[i].content.value, OwnAsset(policy, StateToken)) != 1
  }

  /** What a genesis plan lays out: Config custody first, State custody second. */
  lemma GenesisParts(family: Family, context: Context, seed: OutRef, configReserve: int, stateReserve: int)
    requires CreateGenesisPlan(family, context, seed, configReserve, stateReserve).Ok?
    ensures
      var StatePlan(plan, state) := CreateGenesisPlan(family, context, seed, configReserve, stateReserve).value;
      var Context(d, terms, _) := context;
      var config := ValueOf([(Ada, configReserve), (OwnAsset(d.policy, IdToken), 1)]);
      && ConsistentContext(context, family)
      && state == State(d.policy, d.termsHash, 0, 0, 0, 0, stateReserve, 0)
      && |plan.outputs| == 2 && |plan.inputs| == 1 && plan.inputs[0].ref == seed
      && config.Ok? && StateValue(state, terms).Ok?
      && Output(ConfigOutput, ScriptDestination(d.configLock), config.value,
           Some(ConfigDatum(Config(d.policy, seed, d.termsHash, terms, configReserve)))) == Ok(plan.outputs[0])
      && Output(StateOutput, ScriptDestination(d.policy), StateValue(state, terms).value, Some(StateDatum(state))) == Ok(plan.outputs[1])
  {
    hide ConsistentContext, ValueOf, StateEntries, Output, ValidPlan, ValidEconomics;
  }

  lemma GenesisIsExact(family: Family, context: Context, seed: OutRef, configReserve: int, stateReserve: int)
    requires CreateGenesisPlan(family, context, seed, configReserve, stateReserve).Ok?
    ensures
      var StatePlan(plan, state) := CreateGenesisPlan(family, context, seed, configReserve, stateReserve).value;
      var Context(d, terms, _) := context;
      var config := ValueOf([(Ada, configReserve), (OwnAsset(d.policy, IdToken), 1)]);
      && |plan.outputs| == 2 && config.Ok? && StateValue(state, terms).Ok?
      && HoldsExactly(plan.outputs[0], d.configLock, ConfigDatum(Config(d.policy, seed, d.termsHash, terms, configReserve)), config.value)
      && HoldsExactly(plan.outputs[1], d.policy, StateDatum(state), StateValue(state, terms).value)
  {
    hide CreateGenesisPlan, ConsistentContext, ValueOf, StateEntries, Output, HoldsExactly;
    var StatePlan(plan, state) := CreateGenesisPlan(family, context, seed, configReserve, stateReserve).value;
    GenesisParts(family, context, seed, configReserve, stateReserve);
    var Context(d, terms, _) := context;
    var entries := [(Ada, configReserve), (OwnAsset(d.policy, IdToken), 1)];
    ValueOfMeans(entries);
    ValueOfMeans(StateEntries(state, terms));
    PlannedCustodyIsExact(ConfigOutput, d.configLock, ValueOf(entries).value,
      ConfigDatum(Config(d.policy, seed, d.termsHash, terms, configReserve)));
    PlannedCustodyIsExact(StateOutput, d.policy, StateValue(state, terms).value, StateDatum(state));
  }

  /** What exact genesis custody holds of the vault's own tokens. */
  lemma GenesisTokens(output: Value, entries: seq<(Asset, int)>, a: Asset)
    requires ValueOf(entries).Ok? && AssertSameValue(output, ValueOf(entries).value).Pass?
    ensures Qty(output, a) == EntrySum(entries, a)
  {
    hide AssertSameValue, Qty, EntrySum, ValueOf;
    ValueOfMeans(entries);
    SameValueIsExact(output, ValueOf(entries).value);
  }

  lemma ConfigTokens(output: Value, policy: Hex, reserve: int)
    requires
      var custody := ValueOf([(Ada, reserve), (OwnAsset(policy, IdToken), 1)]);
      custody.Ok? && AssertSameValue(output, custody.value).Pass?
    requires Lower(policy) == policy && IsPositive(reserve) && IsAsset(OwnAsset(policy, IdToken))
    ensures Qty(output, OwnAsset(policy, IdToken)) == 1 && Qty(output, OwnAsset(policy, StateToken)) == 0
    ensures AssertSameValue(output, map[Ada := reserve, OwnAsset(policy, IdToken) := 1]).Pass?
  {
    hide AssertSameValue, ValueOf, EntrySum, TokenHex, IsAsset, ParseHex;
    var id := OwnAsset(policy, IdToken);
    var entries, expected := [(Ada, reserve), (id, 1)], map[Ada := reserve, id := 1];
    OwnAssetId(policy, IdToken);
    TokenNamesAreCanonical(IdToken, StateToken);
    forall a ensures Qty(output, a) == Qty(expected, a) {
      GenesisTokens(output, entries, a);
      SumOfTwo(entries[0], entries[1], a);
    }
    ValueOfMeans(entries);
    SameValueIsExact(output, ValueOf(entries).value);
    assert IsAsset(Ada) by {
      AdaIsAsset();
    }
    SameValueIsExact(output, expected);
  }

  lemma AdaIsAsset()
    ensures IsAsset(Ada)
  {
  }

  lemma StateTokens(output: Value, state: State, terms: Terms, policy: Hex)
    requires StateValue(state, terms).Ok? && AssertSameValue(output, StateValue(state, terms).value).Pass?
    requires state.vaultPolicy == policy == Lower(policy) && state.backingAssets == 0 && state.accruedFees == 0
    ensures Qty(output, OwnAsset(policy, StateToken)) == 1
  {
    hide AssertSameValue, ValueOf, EntrySum, TokenHex, StateEntries, Lower;
    var own := OwnAsset(policy, StateToken);
    OwnAssetId(policy, StateToken);
    GenesisTokens(output, StateEntries(state, terms), own);
    StateEntriesMean(state, terms, policy, own);
  }

  lemma {:induction false} NoCandidates(outputs: seq<LedgerOutput>, policy: Hex)
    requires forall i :: 0 <= i < |outputs| ==> Qty(outputs[i].content.value, OwnAsset(policy, StateToken)) != 1
    ensures StateCandidates(outputs, policy) == []
  {
    if outputs != [] {
      NoCandidates(outputs[1..], policy);
    }
  }

  lemma {:induction false} SomeCandidate(outputs: seq<LedgerOutput>, policy: Hex, i: nat)
    requires i < |outputs| && Qty(outputs[i].content.value, OwnAsset(policy, StateToken)) == 1
    ensures StateCandidates(outputs, policy) != []
    decreases i
  {
    if i > 0 {
      SomeCandidate(outputs[1..], policy, i - 1);
    }
  }

  /** The reader finds the planned State output, and it alone exactly when no other output looks like one. */
  lemma OneCandidate(tx: AcceptedTransaction, policy: Hex)
    requires |tx.outputs| >= 2
    requires Qty(tx.outputs[0].content.value, OwnAsset(policy, StateToken)) != 1
    requires Qty(tx.outputs[1].content.value, OwnAsset(policy, StateToken)) == 1
    ensures OnlyPlannedState(tx, policy) ==> StateCandidates(tx.outputs, policy) == [tx.outputs[1]]
    ensures !OnlyPlannedState(tx, policy) ==> |StateCandidates(tx.outputs, policy)| > 1
  {
    hide Qty;
    var outputs := tx.outputs;
    assert outputs[1..][1..] == outputs[2..];
    assert StateCandidates(outputs[1..], policy) == [outputs[1]] + StateCandidates(outputs[1..][1..], policy);
    if OnlyPlannedState(tx, policy) {
      NoCandidates(outputs[2..], policy);
    } else {
      var i :| 2 <= i < |outputs| && Qty(outputs[i].content.value, OwnAsset(policy, StateToken)) == 1;
      SomeCandidate(outputs[2..], policy, i - 2);
    }
  }

  /** Builds tried before the right one derive another policy, so they pass the output on. */
  lemma {:induction false} EarlierBuildsDoNotMatch(
    tx: AcceptedTransaction, output: LedgerOutput, config: Config, builds: seq<ReviewedBuild>, k: nat, point: ChainPoint,
    network: NetworkBinding)
    requires k < |builds| && AuthenticateGenesis(tx, output, config, builds[k], point, network) != Ok(None)
    requires forall j :: 0 <= j < k ==> builds[j].template(config.seed, config.termsHash) != config.vaultPolicy
    ensures MatchBuild(tx, output, config, builds, point, network) == AuthenticateGenesis(tx, output, config, builds[k], point, network)
    decreases k
  {
    hide ProtectedOutput, AssertSameValue, InitialState, ConsistentContext, Qty, DeploymentOf;
    if k > 0 {
      EarlierBuildsDoNotMatch(tx, output, config, builds[1..], k - 1, point, network);
    }
  }

  lemma InitialIsPlanned(
    tx: AcceptedTransaction, outputs: seq<PlannedOutput>, config: Config, state: State, network: NetworkBinding)
    requires Emits(tx, outputs, network) && |outputs| == 2
    requires state == State(config.vaultPolicy, config.termsHash, 0, 0, 0, 0, state.storageLovelace, 0)
    requires Lower(config.vaultPolicy) == config.vaultPolicy && StateValue(state, config.terms).Ok?
    requires HoldsExactly(outputs[1], config.vaultPolicy, StateDatum(state), StateValue(state, config.terms).value)
    requires Qty(tx.outputs[0].content.value, OwnAsset(config.vaultPolicy, StateToken)) != 1
    ensures !OnlyPlannedState(tx, config.vaultPolicy) ==> InitialState(tx, config, config.vaultPolicy, network.networkId).Err?
    ensures OnlyPlannedState(tx, config.vaultPolicy) ==>
      InitialState(tx, config, config.vaultPolicy, network.networkId)
      == Ok(ProtectedInput(OutRef(tx.id, 1), Enterprise(Script, config.vaultPolicy), StateDatum(state), outputs[1].value))
  {
    hide Emits, HoldsExactly, AssertSameValue, Qty, StateValue, ProtectedOutput, FindOutput, Lower, OwnAsset, OnlyPlannedState;
    var policy := config.vaultPolicy;
    EmittedIsProtected(tx, outputs, network, 1, policy, StateDatum(state), StateValue(state, config.terms).value);
    ExactIsSame(outputs[1], policy, StateDatum(state), StateValue(state, config.terms).value);
    StateTokens(tx.outputs[1].content.value, state, config.terms, policy);
    OneCandidate(tx, policy);
  }

  lemma ExactIsSame(o: PlannedOutput, script: Hex, datum: Datum, custody: Value)
    requires HoldsExactly(o, script, datum, custody)
    ensures AssertSameValue(o.value, custody).Pass? && o.datum == Some(datum)
  {
  }

  /** The planning context, re-read from the chain, is consistent. */
  lemma DiscoveredContext(context: Context, family: Family, ref: OutRef, point: ChainPoint)
    requires ConsistentContext(context, family) && IsQuantity(point.slot) && ParseHexOf(point.blockHash, 32).Ok?
    ensures ConsistentContext(
      Context(context.deployment.(configRef := ref, chainPoint := point), context.terms, context.deployment.termsHash), family)
  {
    hide TermsShape, FamilyModes, ParseHexOf;
  }

  /**
   * A realized genesis plan is discovered as the vault that was planned: the planning deployment at its new Config
   * reference and point, with the planned State in output 1. It is an error exactly when another output looks like a State.
   */
  lemma PlannedGenesisIsDiscovered(
    family: Family, context: Context, seed: OutRef, configReserve: int, stateReserve: int, builds: seq<ReviewedBuild>, k: nat,
    tx: AcceptedTransaction, point: ChainPoint, network: NetworkBinding)
    requires CreateGenesisPlan(family, context, seed, configReserve, stateReserve).Ok?
    requires Emits(tx, CreateGenesisPlan(family, context, seed, configReserve, stateReserve).value.plan.outputs, network)
    requires seed in tx.inputs
    requires k < |builds| && Backs(builds[k], network, point, family, context, seed)
    requires forall j :: 0 <= j < k ==> builds[j].template(seed, context.deployment.termsHash) != context.deployment.policy
    ensures
      var StatePlan(plan, state) := CreateGenesisPlan(family, context, seed, configReserve, stateReserve).value;
      var d := context.deployment;
      && |tx.outputs| > 0 && |plan.outputs| == 2
      && DiscoverAt(tx, tx.outputs[0], builds, point, network).Ok? == OnlyPlannedState(tx, d.policy)
      && (OnlyPlannedState(tx, d.policy) ==>
            DiscoverAt(tx, tx.outputs[0], builds, point, network)
            == Ok(Some(VaultRecord(
                 d.(configRef := OutRef(tx.id, 0), chainPoint := point), context.terms, tx.id, point,
                 ProtectedInput(OutRef(tx.id, 1), Enterprise(Script, d.policy), StateDatum(state), plan.outputs[1].value)))))
  {
    hide CreateGenesisPlan, ConsistentContext, Emits, HoldsExactly, AssertSameValue, Qty, StateValue, ValueOf, ProtectedOutput, FindOutput,
      Lower, OwnAsset, Output, InitialState, ParseHexOf, MatchBuild, OnlyPlannedState;
    var StatePlan(plan, state) := CreateGenesisPlan(family, context, seed, configReserve, stateReserve).value;
    var d, terms := context.deployment, context.terms;
    var config, custody := Config(d.policy, seed, d.termsHash, terms, configReserve), ValueOf([(Ada, configReserve), (OwnAsset(d.policy, IdToken), 1)]);
    GenesisParts(family, context, seed, configReserve, stateReserve);
    GenesisIsExact(family, context, seed, configReserve, stateReserve);
    GenesisChecks(family, context, seed, configReserve, stateReserve);
    ExactIsSame(plan.outputs[0], d.configLock, ConfigDatum(config), custody.value);
    EmittedIsProtected(tx, plan.outputs, network, 0, d.configLock, ConfigDatum(config), custody.value);
    ConfigTokens(tx.outputs[0].content.value, d.policy, configReserve);
    InitialIsPlanned(tx, plan.outputs, config, state, network);
    DiscoveredContext(context, family, OutRef(tx.id, 0), point);
    EarlierBuildsDoNotMatch(tx, tx.outputs[0], config, builds, k, point, network);
  }

  lemma GenesisChecks(family: Family, context: Context, seed: OutRef, configReserve: int, stateReserve: int)
    requires CreateGenesisPlan(family, context, seed, configReserve, stateReserve).Ok?
    ensures IsPositive(configReserve) && IsAsset(OwnAsset(context.deployment.policy, IdToken))
    ensures context.deployment.family == family && (family.Ctvs2? <==> context.deployment.claimScript.Some?)
  {
    hide ValueOf, StateEntries, Output, ValidPlan, ValidEconomics, FamilyModes, TermsShape;
    TokenNamesAreCanonical(IdToken, IdToken);
  }

  lemma NotAnnounced(
    tx: AcceptedTransaction, output: LedgerOutput, builds: seq<ReviewedBuild>, point: ChainPoint, network: NetworkBinding)
    requires output.content.datum.None? || !output.content.datum.value.ConfigDatum?
    ensures DiscoverAt(tx, output, builds, point, network) == Ok(None)
  {
    hide MatchBuild;
  }

  /** When only the first output announces a vault, only that vault is discovered. */
  lemma {:induction false} OnlyFirstIsDiscovered(
    tx: AcceptedTransaction, k: nat, builds: seq<ReviewedBuild>, point: ChainPoint, network: NetworkBinding, vault: VaultRecord)
    requires 1 <= k <= |tx.outputs| && DiscoverAt(tx, tx.outputs[0], builds, point, network) == Ok(Some(vault))
    requires forall i :: 1 <= i < |tx.outputs| ==>
      tx.outputs[i].content.datum.None? || !tx.outputs[i].content.datum.value.ConfigDatum?
    ensures Discovered(tx, k, builds, point, network) == Ok([vault])
  {
    hide DiscoverAt;
    if k > 1 {
      OnlyFirstIsDiscovered(tx, k - 1, builds, point, network, vault);
      NotAnnounced(tx, tx.outputs[k - 1], builds, point, network);
    } else {
      assert Discovered(tx, 0, builds, point, network) == Ok([]);
      assert [] + [vault] == [vault];
    }
  }

  /** A new transaction that announces one new vault, and touches nothing that is tracked. */
  ghost predicate UndisturbedGenesis(p: Projection, read: AcceptedTransaction, policy: Hex) {
    && read.id !in p.transactions && policy !in p.vaults
    && (forall other <- p.vaults :: p.vaults[other].deployment.configRef !in read.inputs)
    && (forall i :: 0 <= i < |read.inputs| ==> !TrackedLive(p, read.inputs[i]))
    && forall i :: 1 <= i < |read.outputs| ==>
         read.outputs[i].content.datum.None? || !read.outputs[i].content.datum.value.ConfigDatum?
  }

  lemma NothingIsSpent(p: Projection, u: L.Utxos, read: AcceptedTransaction, policy: Hex)
    requires Lifecycle(p) && FeedOk(p, read) && R.UtxosAgree(u, p) && UndisturbedGenesis(p, read, policy)
    ensures Directed(p, read) && forall other <- p.vaults :: Spares(p.vaults[other], read)
  {
    hide Lifecycle, FeedOk, R.UtxosAgree, TrackedLive;
    forall i | 0 <= i < |read.inputs| ensures !IsPending(p, read.inputs[i]) && read.inputs[i] !in p.claims {
      if IsPending(p, read.inputs[i]) {
        R.PendingKind(u, p, read.inputs[i]);
      }
      if read.inputs[i] in p.claims {
        R.ClaimKind(u, p, read, read.inputs[i]);
      }
    }
    forall other <- p.vaults ensures Spares(p.vaults[other], read) {
      R.StateKind(u, p, other);
    }
  }

  /** A discovered vault whose transaction disturbs nothing is projected. */
  lemma DiscoveredIsProjected(
    p: Projection, u: L.Utxos, tx: AcceptedTransaction, point: ChainPoint, reading: R.Reading, vault: VaultRecord)
    requires tx.valid && |tx.outputs| > 0
    requires DiscoverAt(tx, tx.outputs[0], reading.builds, point, reading.network) == Ok(Some(vault))
    requires reading.selected.None? || vault.deployment.policy in reading.selected.value
    requires Lifecycle(p) && FeedOk(p, tx) && R.UtxosAgree(u, p) && UndisturbedGenesis(p, tx, vault.deployment.policy)
    ensures
      var projected := ProjectTransaction(p, tx, point, reading.network, reading.builds, reading.selected);
      && projected.Ok? && vault.deployment.policy in projected.value.vaults
      && projected.value.vaults[vault.deployment.policy] == vault
  {
    hide VisitVault, VisitVaults, ConsumeInputs, DiscoverAt, AddOutputs, Discovered, FeedOk, R.UtxosAgree, Linked, SeenIn, Directed,
      TrackedLive, Spares, Lifecycle;
    var policy := vault.deployment.policy;
    var seen := R.Seen(p, tx);
    NothingIsSpent(p, u, tx, policy);
    OrderOf(p);
    VisitsReduce(seen, p.order, |p.order|, policy, tx, point, reading.network);
    SparedVisit(seen, policy, tx, point, reading.network);
    SeenIsDirected(p, tx);
    ConsumptionSucceeds(seen, |tx.inputs|, tx, point);
    LedgerAgreement.ConsumptionKeepsVaults(seen, |tx.inputs|, tx, point);
    var consumed := ConsumeInputs(seen, |tx.inputs|, tx, point).value;
    OnlyFirstIsDiscovered(tx, |tx.outputs|, reading.builds, point, reading.network, vault);
    assert AddVaults(consumed, [vault], 0, reading.selected) == Ok(consumed);
    assert AddVaults(consumed, [vault], 1, reading.selected) == AddVault(consumed, vault, reading.selected);
    var acted := AddVault(consumed, vault, reading.selected).value;
    LedgerAgreement.OutputsKeepVaults(acted.(utxos := acted.utxos - InputSet(tx)), |tx.outputs|, tx, point, reading.network);
  }

  lemma OrderOf(p: Projection)
    requires Lifecycle(p)
    ensures OrderFits(p)
  {
  }

  lemma SeenIsDirected(p: Projection, tx: AcceptedTransaction)
    requires Directed(p, tx)
    ensures Directed(R.Seen(p, tx), tx)
  {
    hide RefundDirected, DeliveryDirected;
  }

  /** The ledger's genesis transaction as the reader is given it, under a build that stands behind the plan. */
  ghost predicate DeliversGenesis(
    context: Context, tx: L.LedgerTx, seed: OutRef, configReserve: int, stateReserve: int, read: AcceptedTransaction, k: nat,
    point: ChainPoint, reading: R.Reading)
  {
    var family, policy := context.deployment.family, context.deployment.policy;
    && CreateGenesisPlan(family, context, seed, configReserve, stateReserve).Ok?
    && Emits(read, CreateGenesisPlan(family, context, seed, configReserve, stateReserve).value.plan.outputs, reading.network)
    && read.id == tx.id && Lower(read.id) == read.id && (forall ref :: ref in read.inputs <==> ref in tx.inputs)
    && LedgerAgreement.ReadsOutputs(read, tx) && seed in read.inputs
    && k < |reading.builds| && Backs(reading.builds[k], reading.network, point, family, context, seed)
    && (forall j :: 0 <= j < k ==> reading.builds[j].template(seed, context.deployment.termsHash) != policy)
    && (reading.selected.None? || policy in reading.selected.value)
  }

  /** Two unspent outputs cannot both hold the only token of an asset. */
  lemma OneHolder(u: L.Utxos, a: Asset, first: OutRef, second: OutRef)
    requires L.Nonnegative(u) && L.Total(u, a) == 1 && first in u && second in u && first != second
    requires Qty(u[first].value, a) == 1
    ensures Qty(u[second].value, a) != 1
  {
    SumRemove(u.Keys, first, L.HeldAt(u, a));
    SumRemove(u.Keys - {first}, second, L.HeldAt(u, a));
    SumNonnegative(u.Keys - {first} - {second}, L.HeldAt(u, a));
  }

  /** A genesis mints one STATE token, and its planned output holds it, so no other output looks like a State. */
  lemma StateIsOnlyPlanned(w: V.World, context: Context, before: L.Utxos, tx: L.LedgerTx, read: AcceptedTransaction)
    requires V.Inv(w, context) && w.utxos == L.Apply(before, tx) && w.stateRef == OutRef(tx.id, 1)
    requires Qty(w.utxos[w.stateRef].value, OwnAsset(context.deployment.policy, StateToken)) == 1
    requires Lower(context.deployment.policy) == context.deployment.policy && LedgerAgreement.ReadsOutputs(read, tx)
    ensures OnlyPlannedState(read, context.deployment.policy)
  {
    hide L.Apply, L.Total, L.Nonnegative, ValidEconomics, EntrySum, StateEntries, Qty, Lower, OwnAsset;
    var policy := context.deployment.policy;
    OwnAssetId(policy, StateToken);
    forall i | 2 <= i < |read.outputs| ensures Qty(read.outputs[i].content.value, OwnAsset(policy, StateToken)) != 1 {
      V.CreatedOutput(before, tx, i);
      OwnIsItself(policy, StateToken);
      OneHolder(w.utxos, V.Token(context, StateToken), w.stateRef, OutRef(tx.id, i));
    }
  }

  lemma OwnIsItself(policy: Hex, token: TokenName)
    requires Lower(policy) == policy
    ensures AssetId(OwnAsset(policy, token)) == OwnAsset(policy, token)
  {
    hide Lower, TokenHex;
    OwnAssetId(policy, token);
  }

  /**
   * A realized genesis that disturbs nothing else is accepted, and the reader follows the ledger from there: in sync with
   * the vault's first State, agreeing on the unspent outputs, and with its records linked.
   */
  lemma GenesisIsFollowed(
    w: V.World, context: Context, before: L.Utxos, tx: L.LedgerTx, seed: OutRef, configReserve: int, stateReserve: int,
    p: Projection, read: AcceptedTransaction, k: nat, point: ChainPoint, reading: R.Reading)
    requires V.AfterGenesis(w, context, before, tx, seed, configReserve, stateReserve)
    requires DeliversGenesis(context, tx, seed, configReserve, stateReserve, read, k, point, reading)
    requires Lifecycle(p) && FeedOk(p, read) && R.UtxosAgree(before, p) && UndisturbedGenesis(p, read, context.deployment.policy)
    ensures V.Inv(w, context)
    ensures
      var projected := ProjectTransaction(p, read, point, reading.network, reading.builds, reading.selected);
      projected.Ok? && R.Following(w, projected.value, context)
  {
    hide CreateGenesisPlan, V.Inv, L.Balanced, L.Total, V.Token, L.Nonnegative, L.Apply, DiscoverAt, ProjectTransaction, Lower, L.Realizes,
      Lifecycle, FeedOk, R.UtxosAgree, UndisturbedGenesis, OnlyPlannedState, LedgerAgreement.ReadsOutputs, Emits, Qty, OwnAsset;
    V.GenesisEstablishesInv(w, context, before, tx, seed, configReserve, stateReserve);
    var family, policy := context.deployment.family, context.deployment.policy;
    GenesisEvidence(w, context, before, tx, seed, configReserve, stateReserve);
    GenesisHoldsState(w, context, before, tx, seed, configReserve, stateReserve);
    StateIsOnlyPlanned(w, context, before, tx, read);
    PlannedGenesisIsDiscovered(family, context, seed, configReserve, stateReserve, reading.builds, k, read, point, reading.network);
    var vault := DiscoverAt(read, read.outputs[0], reading.builds, point, reading.network).value.value;
    DeliveredIsValid(read, tx);
    DiscoveredIsProjected(p, before, read, point, reading, vault);
    ProjectTransactionKeepsLifecycle(p, read, point, reading.network, reading.builds, reading.selected);
    R.UtxosStayAgreed(before, tx, read, p, point, reading);
  }

  lemma DeliveredIsValid(read: AcceptedTransaction, tx: L.LedgerTx)
    requires LedgerAgreement.ReadsOutputs(read, tx)
    ensures read.valid
  {
  }

  /** The State output of a realized genesis holds the STATE token. */
  lemma GenesisHoldsState(
    w: V.World, context: Context, before: L.Utxos, tx: L.LedgerTx, seed: OutRef, configReserve: int, stateReserve: int)
    requires V.AfterGenesis(w, context, before, tx, seed, configReserve, stateReserve)
    requires w.stateRef in w.utxos && Lower(context.deployment.policy) == context.deployment.policy
    requires
      var StatePlan(plan, state) := CreateGenesisPlan(context.deployment.family, context, seed, configReserve, stateReserve).value;
      && |plan.outputs| == 2
      && V.StateEvidence(w)
         == ProtectedInput(OutRef(tx.id, 1), Enterprise(Script, context.deployment.policy), StateDatum(state), plan.outputs[1].value)
    ensures Qty(w.utxos[w.stateRef].value, OwnAsset(context.deployment.policy, StateToken)) == 1
  {
    hide CreateGenesisPlan, L.Balanced, L.Total, V.Token, L.Nonnegative, L.Apply, Lower, L.Realizes, HoldsExactly, Qty, OwnAsset, StateValue,
      AssertSameValue, ValueOf, Output, ConsistentContext;
    var family := context.deployment.family;
    var StatePlan(plan, state) := CreateGenesisPlan(family, context, seed, configReserve, stateReserve).value;
    GenesisParts(family, context, seed, configReserve, stateReserve);
    GenesisIsExact(family, context, seed, configReserve, stateReserve);
    ExactIsSame(plan.outputs[1], context.deployment.policy, StateDatum(state), StateValue(state, context.terms).value);
    StateTokens(plan.outputs[1].value, state, context.terms, context.deployment.policy);
  }

  /** From genesis on, along every run, the reader accepts each transaction and follows the ledger. */
  lemma ReaderFollowsFromGenesis(
    worlds: seq<V.World>, events: seq<V.Event>, received: seq<R.Reception>, ps: seq<Projection>, context: Context, reading: R.Reading,
    before: L.Utxos, tx: L.LedgerTx, seed: OutRef, configReserve: int, stateReserve: int, p: Projection, read: AcceptedTransaction,
    k: nat, point: ChainPoint, j: nat)
    requires R.ReadRun(worlds, events, received, ps, context, reading) && j <= |events|
    requires V.AfterGenesis(worlds[0], context, before, tx, seed, configReserve, stateReserve)
    requires DeliversGenesis(context, tx, seed, configReserve, stateReserve, read, k, point, reading)
    requires Lifecycle(p) && FeedOk(p, read) && R.UtxosAgree(before, p) && UndisturbedGenesis(p, read, context.deployment.policy)
    requires ps[0] == R.Received(p, R.Reception(read, point), reading)
    ensures V.Inv(worlds[j], context) && R.Following(worlds[j], ps[j], context)
    ensures forall i :: 0 <= i < j ==>
      ProjectTransaction(ps[i], received[i].read, received[i].point, reading.network, reading.builds, reading.selected) == Ok(ps[i + 1])
  {
    hide V.AfterGenesis, DeliversGenesis, R.ReadRun, Lifecycle, FeedOk, R.UtxosAgree, UndisturbedGenesis, V.Inv, R.Following,
      ProjectTransaction;
    RunsStart(worlds, events, received, ps, context, reading);
    GenesisIsFollowed(worlds[0], context, before, tx, seed, configReserve, stateReserve, p, read, k, point, reading);
    R.ReaderFollowsLedger(worlds, events, received, ps, context, reading, j);
  }

  lemma RunsStart(
    worlds: seq<V.World>, events: seq<V.Event>, received: seq<R.Reception>, ps: seq<Projection>, context: Context, reading: R.Reading)
    requires R.ReadRun(worlds, events, received, ps, context, reading)
    ensures |worlds| == |ps| == |events| + 1 && |received| == |events|
  {
    hide V.Next, R.Feeds, R.Received;
  }

  lemma GenesisEvidence(
    w: V.World, context: Context, before: L.Utxos, tx: L.LedgerTx, seed: OutRef, configReserve: int, stateReserve: int)
    requires V.AfterGenesis(w, context, before, tx, seed, configReserve, stateReserve)
    ensures w.stateRef in w.utxos
    ensures
      var StatePlan(plan, state) := CreateGenesisPlan(context.deployment.family, context, seed, configReserve, stateReserve).value;
      && |plan.outputs| == 2
      && V.StateEvidence(w)
         == ProtectedInput(OutRef(tx.id, 1), Enterprise(Script, context.deployment.policy), StateDatum(state), plan.outputs[1].value)
  {
    hide CreateGenesisPlan, L.Balanced, L.Total, V.Token, L.Nonnegative, L.Apply, StateUpdate;
    V.GenesisParts(context, seed, configReserve, stateReserve);
    var state := CreateGenesisPlan(context.deployment.family, context, seed, configReserve, stateReserve).value.successor;
    V.CreatedOutput(before, tx, 1);
    V.UpdateIsExact(context, state);
  }
}
