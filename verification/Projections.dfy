/** The projected records of accepted history, and how a vault enters them. */
module Projections {
  import opened Results
  import opened Types
  import opened HexStrings
  import opened Values
  import opened References
  import opened Quotes
  import opened Planning
  import opened AcceptedTransactions

  datatype NetworkBinding = NetworkBinding(name: string, networkId: int, domain: Hex)

  /** `template` is the hash of the vault script applied to a seed and a Terms commitment. */
  datatype ReviewedBuild = ReviewedBuild(
    family: Family,
    buildId: string,
    template: (OutRef, Hex) -> Hex,
    configLock: Hex,
    claimScript: Option<Hex>)

  datatype VaultRecord = VaultRecord(
    deployment: Deployment,
    terms: Terms,
    genesisTx: Hex,
    genesisPoint: ChainPoint,
    state: ProtectedInput)

  datatype RequestStatus = PendingEscrow | Claimable | Delivered | Refunded

  datatype SettlementRecord = SettlementRecord(txId: Hex, stateRef: OutRef, claimRef: OutRef, point: ChainPoint)

  datatype CompletionRecord = CompletionRecord(txId: Hex, output: OutRef, point: ChainPoint)

  datatype RequestRecord = RequestRecord(
    ref: OutRef,
    policy: Hex,
    recovery: Recovery,
    request: Option<Request>,
    source: LedgerOutput,
    created: ChainPoint,
    status: RequestStatus,
    settlement: Option<SettlementRecord>,
    completion: Option<CompletionRecord>)

  datatype ClaimRecord = ClaimRecord(ref: OutRef, claim: Claim, source: LedgerOutput, request: OutRef, delivered: bool)

  /** `order` is the insertion order of the vault map. */
  datatype Projection = Projection(
    vaults: map<Hex, VaultRecord>,
    order: seq<Hex>,
    requests: map<OutRef, RequestRecord>,
    claims: map<OutRef, ClaimRecord>,
    utxos: map<OutRef, LedgerOutput>,
    transactions: set<Hex>)

  const EMPTY_PROJECTION := Projection(map[], [], map[], map[], map[], {})

  /** The outputs that hold exactly one STATE token of a policy. */
  function StateCandidates(outputs: seq<LedgerOutput>, policy: Hex): (r: seq<LedgerOutput>)
    ensures forall o <- r :: o in outputs
  {
    if outputs == [] then []
    else
      (if Qty(outputs[0].content.value, OwnAsset(policy, StateToken)) == 1 then [outputs[0]] else [])
      + StateCandidates(outputs[1..], policy)
  }

  /** The unique State output of a genesis, with empty accounting and exact custody. */
  function InitialState(tx: AcceptedTransaction, config: Config, policy: Hex, networkId: int): Result<ProtectedInput> {
    var candidates := StateCandidates(tx.outputs, policy);
    :- Need(|candidates| == 1, NotEligible);
    var state :- ProtectedOutput(candidates[0], policy, networkId);
    :- Need(state.datum.StateDatum?, InvalidShape);
    var datum := state.datum.state;
    :- Need(
      && datum.sequence == 0 && datum.backingAssets == 0 && datum.economicSupply == 0 && datum.accruedFees == 0
      && datum.pauseFlags == 0 && datum.termsHash == config.termsHash && datum.vaultPolicy == policy, NotEligible);
    var custody :- StateValue(datum, config.terms);
    :- AssertSameValue(state.value, custody);
    Ok(state)
  }

  function DeploymentOf(
    output: LedgerOutput, config: Config, policy: Hex, build: ReviewedBuild, point: ChainPoint, network: NetworkBinding
  ): Deployment {
    Deployment(
      build.family, network.name, network.domain, policy, build.configLock,
      if build.family.Ctvs1? then None else build.claimScript,
      config.termsHash, output.ref, build.buildId, point)
  }

  /** A mismatched policy or ID token is not a candidate; once both match, every further failure is an error. */
  function AuthenticateGenesis(
    tx: AcceptedTransaction, output: LedgerOutput, config: Config, build: ReviewedBuild, point: ChainPoint, network: NetworkBinding
  ): Result<Option<VaultRecord>> {
    var policy := build.template(config.seed, config.termsHash);
    if config.vaultPolicy != policy || Qty(output.content.value, OwnAsset(policy, IdToken)) != 1 then Ok(None)
    else
      var _ :- ProtectedOutput(output, build.configLock, network.networkId);
      :- AssertSameValue(output.content.value, map[Ada := config.storageLovelace, OwnAsset(policy, IdToken) := 1]);
      :- Need(config.seed in tx.inputs, MissingLineage);
      var state :- InitialState(tx, config, policy, network.networkId);
      :- Need(build.family.Ctvs2? ==> build.claimScript.Some?, InvalidShape);
      var deployment := DeploymentOf(output, config, policy, build, point, network);
      :- AssertContext(Context(deployment, config.terms, config.termsHash), build.family);
      Ok(Some(VaultRecord(deployment, config.terms, tx.id, point, state)))
  }

  /** The first pinned build that an output authenticates under. */
  function MatchBuild(
    tx: AcceptedTransaction, output: LedgerOutput, config: Config, builds: seq<ReviewedBuild>, point: ChainPoint, network: NetworkBinding
  ): Result<Option<VaultRecord>>
    decreases |builds|
  {
    if builds == [] then Ok(None)
    else
      var vault :- AuthenticateGenesis(tx, output, config, builds[0], point, network);
      if vault.Some? then Ok(vault) else MatchBuild(tx, output, config, builds[1..], point, network)
  }

  function DiscoverAt(
    tx: AcceptedTransaction, output: LedgerOutput, builds: seq<ReviewedBuild>, point: ChainPoint, network: NetworkBinding
  ): Result<Option<VaultRecord>> {
    if output.content.datum.None? || !output.content.datum.value.ConfigDatum? then Ok(None)
    else
      var config := output.content.datum.value.config;
      if config.terms.networkDomain != network.domain then Ok(None)
      else MatchBuild(tx, output, config, builds, point, network)
  }

  /** Genesis records of the first k outputs. */
  function Discovered(tx: AcceptedTransaction, k: nat, builds: seq<ReviewedBuild>, point: ChainPoint, network: NetworkBinding)
    : Result<seq<VaultRecord>>
    requires k <= |tx.outputs|
  {
    if k == 0 then Ok([])
    else
      var earlier :- Discovered(tx, k - 1, builds, point, network);
      var vault :- DiscoverAt(tx, tx.outputs[k - 1], builds, point, network);
      Ok(if vault.None? then earlier else earlier + [vault.value])
  }

  function DiscoverGenesis(tx: AcceptedTransaction, builds: seq<ReviewedBuild>, point: ChainPoint, network: NetworkBinding)
    : Result<seq<VaultRecord>>
  {
    if !tx.valid then Ok([]) else Discovered(tx, |tx.outputs|, builds, point, network)
  }

  lemma {:induction false} DiscoveryFailsEarly(
    tx: AcceptedTransaction, k: nat, n: nat, builds: seq<ReviewedBuild>, point: ChainPoint, network: NetworkBinding)
    requires k <= n <= |tx.outputs| && Discovered(tx, k, builds, point, network).Err?
    ensures Discovered(tx, n, builds, point, network) == Discovered(tx, k, builds, point, network)
  {
    hide DiscoverAt;
    if k < n {
      DiscoveryFailsEarly(tx, k, n - 1, builds, point, network);
    }
  }

  /** The nested search over outputs and builds. */
  method FindGenesis(tx: AcceptedTransaction, builds: seq<ReviewedBuild>, point: ChainPoint, network: NetworkBinding)
    returns (r: Result<seq<VaultRecord>>)
    ensures r == DiscoverGenesis(tx, builds, point, network)
  {
    hide AuthenticateGenesis;
    if !tx.valid {
      return Ok([]);
    }
    var discovered: seq<VaultRecord> := [];
    for k := 0 to |tx.outputs|
      invariant Discovered(tx, k, builds, point, network) == Ok(discovered)
    {
      var output := tx.outputs[k];
      if output.content.datum.Some? && output.content.datum.value.ConfigDatum?
        && output.content.datum.value.config.terms.networkDomain == network.domain
      {
        var config := output.content.datum.value.config;
        var b := 0;
        var found: Option<VaultRecord> := None;
        while b < |builds| && found.None?
          invariant 0 <= b <= |builds|
          invariant DiscoverAt(tx, output, builds, point, network)
            == if found.Some? then Ok(found) else MatchBuild(tx, output, config, builds[b..], point, network)
        {
          assert builds[b..][1..] == builds[b + 1..];
          var vault := AuthenticateGenesis(tx, output, config, builds[b], point, network);
          if vault.Err? {
            DiscoveryFailsEarly(tx, k + 1, |tx.outputs|, builds, point, network);
            return Err(vault.error);
          }
          found := vault.value;
          b := b + 1;
        }
        assert found.None? ==> builds[b..] == [];
        if found.Some? {
          discovered := discovered + [found.value];
        }
      }
    }
    return Ok(discovered);
  }

  /** What authentication establishes of a vault record. */
  predicate AuthenticVault(vault: VaultRecord, tx: AcceptedTransaction, network: NetworkBinding) {
    && vault.state.datum.StateDatum?
    && vault.state.datum.state.vaultPolicy == vault.deployment.policy
    && exists source :: source in tx.outputs && IsProtected(source, vault.deployment.policy, network.networkId)
         && vault.state.ref == source.ref && source.content.datum == Some(vault.state.datum)
         && vault.state.value == source.content.value
  }

  lemma AuthenticateGivesAuthentic(
    tx: AcceptedTransaction, output: LedgerOutput, config: Config, build: ReviewedBuild, point: ChainPoint, network: NetworkBinding)
    requires AuthenticateGenesis(tx, output, config, build, point, network).Ok?
    ensures
      var vault := AuthenticateGenesis(tx, output, config, build, point, network).value;
      vault.Some? ==> AuthenticVault(vault.value, tx, network)
  {
    hide ConsistentContext, AssertSameValue, StateValue, ParseHexOf;
    var vault := AuthenticateGenesis(tx, output, config, build, point, network).value;
    if vault.Some? {
      var policy := build.template(config.seed, config.termsHash);
      var source := StateCandidates(tx.outputs, policy)[0];
      assert source in tx.outputs;
    }
  }

  lemma {:induction false} MatchGivesAuthentic(
    tx: AcceptedTransaction, output: LedgerOutput, config: Config, builds: seq<ReviewedBuild>, point: ChainPoint, network: NetworkBinding)
    requires MatchBuild(tx, output, config, builds, point, network).Ok?
    ensures
      var vault := MatchBuild(tx, output, config, builds, point, network).value;
      vault.Some? ==> AuthenticVault(vault.value, tx, network)
    decreases |builds|
  {
    hide AuthenticateGenesis, AuthenticVault;
    if builds != [] {
      AuthenticateGivesAuthentic(tx, output, config, builds[0], point, network);
      if AuthenticateGenesis(tx, output, config, builds[0], point, network).value.None? {
        MatchGivesAuthentic(tx, output, config, builds[1..], point, network);
      }
    }
  }

  /** Every discovered vault names a protected State output of this very transaction. */
  lemma {:induction false} DiscoveredAreAuthentic(
    tx: AcceptedTransaction, k: nat, builds: seq<ReviewedBuild>, point: ChainPoint, network: NetworkBinding)
    requires k <= |tx.outputs| && Discovered(tx, k, builds, point, network).Ok?
    ensures forall vault <- Discovered(tx, k, builds, point, network).value :: AuthenticVault(vault, tx, network)
  {
    hide MatchBuild, AuthenticVault;
    if k > 0 {
      DiscoveredAreAuthentic(tx, k - 1, builds, point, network);
      var output := tx.outputs[k - 1];
      if output.content.datum.Some? && output.content.datum.value.ConfigDatum? {
        var config := output.content.datum.value.config;
        if config.terms.networkDomain == network.domain {
          MatchGivesAuthentic(tx, output, config, builds, point, network);
        }
      }
    }
  }
}
