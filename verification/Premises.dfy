/** What supplied evidence has to be, spelled out: contexts, State inputs, Requests, Recoveries and Claims. */
module Premises {
  import opened Results
  import opened Types
  import opened Arithmetic
  import opened HexStrings
  import opened References
  import opened Values
  import opened Quotes
  import opened Transitions
  import opened Planning
  import opened Settlement
  import opened Planners
  import opened Participation

  predicate IsAmount(n: int) {
    0 <= n <= 9_223_372_036_854_775_807
  }

  predicate IsDigits(s: string) {
    |s| % 2 == 0 && forall c <- s :: '0' <= c <= '9' || 'a' <= c <= 'f' || 'A' <= c <= 'F'
  }

  /** The hexadecimal text of a fixed number of bytes, in either letter case. */
  predicate IsHex(s: string, bytes: nat) {
    IsDigits(s) && |s| == 2 * bytes
  }

  lemma HexMeans(s: string, bytes: nat)
    ensures ParseHex(s).Ok? <==> IsDigits(s)
    ensures ParseHexOf(s, bytes).Ok? <==> IsHex(s, bytes)
  {
    HexIsExact(s);
    forall c: char ensures DigitValue(c).Some? <==> '0' <= c <= '9' || 'a' <= c <= 'f' || 'A' <= c <= 'F' {
      DigitIsExact(c);
    }
  }

  lemma AllHexMeans()
    ensures forall s: string :: ParseHex(s).Ok? <==> IsDigits(s)
    ensures forall s: string, n: nat :: ParseHexOf(s, n).Ok? <==> IsHex(s, n)
  {
    hide ParseHex, ParseHexOf, IsHex, IsDigits;
    forall s: string, n: nat ensures ParseHexOf(s, n).Ok? <==> IsHex(s, n) {
      HexMeans(s, n);
    }
    forall s: string ensures ParseHex(s).Ok? <==> IsDigits(s) {
      HexMeans(s, 0);
    }
  }

  predicate IsAt(ref: OutRef) {
    IsHex(ref.txId, 32) && 0 <= ref.index < 65_536
  }

  predicate IsLocated(a: Address) {
    IsHex(a.payment.hash, 28) && (a.stake.Some? ==> IsHex(a.stake.value.hash, 28))
  }

  /** An asset that the ledger can name: a 28-byte policy and a name of at most 32 bytes. */
  predicate IsNamed(a: Asset) {
    a.Native? ==> IsHex(a.policy, 28) && IsDigits(a.name) && |a.name| <= 64
  }

  /** Amounts of named assets, every name in lower case. */
  predicate IsCanonical(v: Value) {
    forall a <- v :: IsAmount(v[a]) && IsNamed(a) && (a.Native? ==> Lower(a.policy) == a.policy && Lower(a.name) == a.name)
  }

  lemma NamedMeans(a: Asset)
    ensures IsAsset(a) <==> IsNamed(a)
  {
    if a.Native? {
      HexMeans(a.policy, 28);
      HexMeans(a.name, 0);
    }
  }

  lemma CanonicalMeans(v: Value)
    ensures IsActual(v) <==> IsCanonical(v)
  {
    hide IsAsset, IsNamed, Lower;
    forall a: Asset ensures IsAsset(a) <==> IsNamed(a) {
      NamedMeans(a);
    }
  }

  /** Up to 16 key hashes in strict order of their lower-case text. */
  predicate IsMembership(keys: seq<Hex>) {
    && 1 <= |keys| <= 16 && (forall k <- keys :: IsHex(k, 28))
    && forall i :: 0 < i < |keys| ==> TextLess(Lower(keys[i - 1]), Lower(keys[i]))
  }

  lemma MembershipMeans(keys: seq<Hex>)
    ensures IsKeySet(keys) <==> IsMembership(keys)
  {
    hide ParseHexOf, IsHex, TextLess;
    AllHexMeans();
  }

  predicate IsSupported(t: Terms) {
    && t.profile == 0 && IsHex(t.networkDomain, 32) && IsNamed(t.underlying)
    && 1 <= t.virtualShares && IsAmount(t.virtualShares) && (t.maxBacking.Some? ==> IsAmount(t.maxBacking.value))
    && 0 <= t.entryBps < 10_000 && 0 <= t.exitBps < 10_000 && IsLocated(t.feeDestination.address)
    && (t.pauseKey.Some? ==> IsHex(t.pauseKey.value, 28)) && (t.settlers.Some? ==> IsMembership(t.settlers.value))
    && 0 < t.executionModes < 16 && 1 <= t.maxBatch <= 16
    && (t.descriptorHash.Some? ==> IsHex(t.descriptorHash.value, 32))
  }

  lemma SupportedMeans(t: Terms)
    ensures TermsShape(t) <==> IsSupported(t)
  {
    hide ParseHexOf, IsHex, IsAsset, IsNamed, IsKeySet, IsMembership;
    AllHexMeans();
    NamedMeans(t.underlying);
    if t.settlers.Some? {
      MembershipMeans(t.settlers.value);
    }
  }

  /** One spelling or another of the same bytes. */
  predicate Matches(a: Hex, b: Hex) {
    IsDigits(a) && IsDigits(b) && Lower(a) == Lower(b)
  }

  lemma MatchMeans(a: Hex, b: Hex)
    ensures SameHex(a, b) <==> Matches(a, b)
  {
    hide ParseHex, IsDigits, Lower;
    AllHexMeans();
  }

  lemma AllMatchMeans()
    ensures forall a: Hex, b: Hex :: SameHex(a, b) <==> Matches(a, b)
  {
    hide SameHex, Matches;
    forall a: Hex, b: Hex ensures SameHex(a, b) <==> Matches(a, b) {
      MatchMeans(a, b);
    }
  }

  /** A deployment whose family, modes, identities and Terms commitment fit together; its own tokens are not its underlying. */
  predicate IsDeployed(context: Context, family: Family) {
    var Context(d, t, commitment) := context;
    && d.family == family
    && (family == Ctvs1 ==> d.claimScript == None && t.executionModes in {1, 2, 3})
    && (family == Ctvs2 ==> d.claimScript.Some? && IsHex(d.claimScript.value, 28) && t.executionModes in {4, 8, 12})
    && IsSupported(t) && IsHex(d.policy, 28) && IsHex(d.configLock, 28)
    && d.network != "" && d.buildId != "" && Matches(d.networkDomain, t.networkDomain) && Matches(d.termsHash, commitment)
    && (t.underlying.Native? ==> !Matches(t.underlying.policy, d.policy))
    && IsAmount(d.chainPoint.slot) && IsHex(d.chainPoint.blockHash, 32)
  }

  lemma DeployedMeans(context: Context, family: Family)
    ensures AssertContext(context, family).Pass? <==> IsDeployed(context, family)
  {
    hide ParseHexOf, IsHex, SameHex, Matches, TermsShape, IsSupported;
    AllHexMeans();
    AllMatchMeans();
    SupportedMeans(context.terms);
  }

  /** A reference to script custody in canonical form. */
  predicate IsHeldBy(input: ProtectedInput, script: Hex) {
    && IsAt(input.ref) && IsCanonical(input.value) && input.address.stake == None
    && input.address.payment.kind == Script && Lower(input.address.payment.hash) == Lower(script)
  }

  lemma HeldByMeans(input: ProtectedInput, script: Hex)
    ensures AssertProtectedInput(input, script).Pass? <==> IsHeldBy(input, script)
  {
    hide ParseHexOf, IsHex, IsActual, IsCanonical, Lower;
    AllHexMeans();
    CanonicalMeans(input.value);
  }

  lemma {:induction false} EntriesAreGood(v: Value, entries: seq<(Asset, int)>)
    requires AddEntries(v, entries).Ok?
    ensures forall e <- entries :: IsAsset(e.0) && IsQuantity(e.1)
    decreases |entries|
  {
    hide IsAsset;
    if entries != [] {
      EntriesAreGood(AddEntry(v, entries[0]).value, entries[1..]);
      assert entries == [entries[0]] + entries[1..];
    }
  }

  lemma {:induction false} SumsAreNonnegative(entries: seq<(Asset, int)>, a: Asset)
    requires forall e <- entries :: IsQuantity(e.1)
    ensures 0 <= EntrySum(entries, a)
  {
    if entries != [] {
      SumsAreNonnegative(entries[1..], a);
    }
  }

  lemma {:induction false} GoodEntriesAdd(v: Value, entries: seq<(Asset, int)>)
    requires forall e <- entries :: IsAsset(e.0) && IsQuantity(e.1)
    requires forall a :: 0 <= Qty(v, a) && Qty(v, a) + EntrySum(entries, a) <= Q_MAX
    ensures AddEntries(v, entries).Ok?
    decreases |entries|
  {
    hide IsAsset, AssetId;
    if entries != [] {
      var first, rest := entries[0], entries[1..];
      assert entries == [first] + rest;
      SumsAreNonnegative(rest, AssetId(first.0));
      assert Qty(v, AssetId(first.0)) + EntrySum(entries, AssetId(first.0)) <= Q_MAX;
      var w := AddEntry(v, first).value;
      forall a ensures 0 <= Qty(w, a) && Qty(w, a) + EntrySum(rest, a) <= Q_MAX {
        assert Qty(v, a) + EntrySum(entries, a) <= Q_MAX;
      }
      GoodEntriesAdd(w, rest);
    }
  }

  /** Custody meets an equation exactly when its terms are amounts of named assets and it holds their sum of every asset. */
  lemma EquationIsExact(actual: Value, entries: seq<(Asset, int)>)
    ensures ValueOf(entries).Ok? && AssertSameValue(actual, ValueOf(entries).value).Pass? <==>
      && (forall e <- entries :: IsNamed(e.0) && IsAmount(e.1))
      && IsCanonical(actual) && forall a :: Qty(actual, a) == EntrySum(entries, a)
  {
    hide IsAsset, IsNamed, IsActual, IsCanonical, AddEntries, AssertSameValue, EntrySum;
    forall a: Asset ensures IsAsset(a) <==> IsNamed(a) {
      NamedMeans(a);
    }
    CanonicalMeans(actual);
    if ValueOf(entries).Ok? {
      EntriesAreGood(map[], entries);
      ValueOfMeans(entries);
      SameValueIsExact(actual, ValueOf(entries).value);
    }
    if (forall e <- entries :: IsAsset(e.0) && IsQuantity(e.1)) && IsActual(actual) && forall a :: Qty(actual, a) == EntrySum(entries, a) {
      ActualIsBounded(actual);
      forall a ensures 0 <= Qty(map[], a) && Qty(map[], a) + EntrySum(entries, a) <= Q_MAX {
        assert Qty(actual, a) <= Q_MAX;
      }
      GoodEntriesAdd(map[], entries);
    }
  }

  lemma ActualIsBounded(v: Value)
    requires IsActual(v)
    ensures forall a :: 0 <= Qty(v, a) <= Q_MAX
  {
    hide IsAsset;
  }

  /** The fields of a State in range, whatever its Terms. */
  predicate IsState(s: State) {
    && IsHex(s.vaultPolicy, 28) && IsHex(s.termsHash, 32) && IsAmount(s.sequence) && IsAmount(s.backingAssets)
    && IsAmount(s.economicSupply) && IsAmount(s.accruedFees) && 1 <= s.storageLovelace && IsAmount(s.storageLovelace)
    && 0 <= s.pauseFlags < 4
  }

  /** Backing plus fees in the underlying asset, the reserve in ADA, and one STATE token: nothing missing, nothing else. */
  ghost predicate HoldsState(v: Value, s: State, t: Terms) {
    forall a :: Qty(v, a)
      == When(a == Ada, s.storageLovelace) + When(a == AssetId(t.underlying), s.backingAssets + s.accruedFees)
       + When(a == Native(Lower(s.vaultPolicy), "5354415445"), 1)
  }

  lemma StateHoldingMeans(v: Value, s: State, t: Terms)
    requires IsState(s) && IsNamed(t.underlying)
    ensures StateValue(s, t).Ok? && AssertSameValue(v, StateValue(s, t).value).Pass? <==>
      IsAmount(s.backingAssets + s.accruedFees) && IsCanonical(v) && HoldsState(v, s, t)
  {
    hide ParseHex, IsHex, IsCanonical, AssertSameValue, IsDigits, ValueOf, Lower, TokenHex, EntrySum;
    var entries := StateEntries(s, t);
    EquationIsExact(v, entries);
    TokenNamesAreSpelled();
    AllHexMeans();
    OwnAssetId(s.vaultPolicy, StateToken);
    NameIsNamed(s.vaultPolicy, StateToken);
    forall a ensures EntrySum(entries, a)
      == When(a == Ada, s.storageLovelace) + When(a == AssetId(t.underlying), s.backingAssets + s.accruedFees)
       + When(a == Native(Lower(s.vaultPolicy), "5354415445"), 1)
    {
      SumOfThree(entries[0], entries[1], entries[2], a);
    }
    assert entries[1] == (t.underlying, s.backingAssets + s.accruedFees);
    forall e <- entries ensures e == entries[0] || e == entries[1] || e == entries[2] {
    }
  }

  lemma NameIsNamed(policy: Hex, token: TokenName)
    requires IsHex(policy, 28)
    ensures IsNamed(OwnAsset(policy, token))
  {
    hide IsHex;
    TokenNamesAreCanonical(token, token);
    HexMeans(TokenHex(token), 0);
  }

  /**
   * A State input resolves exactly when its context is deployed, it is custody at the vault's own script, its datum is a
   * State of this vault and these Terms with sound economics, and it holds exactly what that State says.
   */
  lemma ResolveMeans(context: Context, input: ProtectedInput, family: Family, state: State)
    ensures ResolveState(context, input, family) == Ok(state) <==>
      && IsDeployed(context, family) && IsAt(context.deployment.configRef)
      && IsHeldBy(input, context.deployment.policy) && input.datum == StateDatum(state) && IsState(state)
      && Matches(state.vaultPolicy, context.deployment.policy) && Matches(state.termsHash, context.deployment.termsHash)
      && ValidEconomics(state, context.terms) && HoldsState(input.value, state, context.terms)
  {
    hide ConsistentContext, IsDeployed, AssertProtectedInput, IsHeldBy, ParseHexOf, IsHex, SameHex, Matches, ValidEconomics, StateValue,
      AssertSameValue, HoldsState, IsCanonical, IsNamed;
    AllHexMeans();
    AllMatchMeans();
    DeployedMeans(context, family);
    HeldByMeans(input, context.deployment.policy);
    if IsState(state) && IsDeployed(context, family) && IsHeldBy(input, context.deployment.policy) {
      DeployedHasNamed(context, family);
      HeldIsCanonical(input, context.deployment.policy);
      StateHoldingMeans(input.value, state, context.terms);
      if ValidEconomics(state, context.terms) {
        ValidTotal(state, context.terms);
      }
    }
  }

  lemma DeployedHasNamed(context: Context, family: Family)
    requires IsDeployed(context, family)
    ensures IsNamed(context.terms.underlying)
  {
    hide IsHex, Matches, IsNamed, IsMembership;
  }

  lemma HeldIsCanonical(input: ProtectedInput, script: Hex)
    requires IsHeldBy(input, script)
    ensures IsCanonical(input.value)
  {
    hide IsHex, IsCanonical;
  }

  lemma ValidTotal(state: State, terms: Terms)
    requires ValidEconomics(state, terms)
    ensures IsAmount(state.backingAssets + state.accruedFees)
  {
    ValidEconomicsMeans(state, terms);
  }

  predicate IsSoundRecovery(r: Recovery) {
    && IsHex(r.vaultPolicy, 28) && IsHex(r.controller, 28) && IsLocated(r.refund.address)
    && 1 <= r.deadlinePosixMs && IsAmount(r.deadlinePosixMs)
  }

  predicate IsSoundBody(b: RequestBody) {
    && IsHex(b.termsHash, 32) && IsLocated(b.receiver.address)
    && 1 <= b.offered && IsAmount(b.offered) && 1 <= b.minimumOutput && IsAmount(b.minimumOutput)
    && 1 <= b.storageLovelace && 0 <= b.settlerFee <= b.executionBudget && IsAmount(b.storageLovelace + b.executionBudget)
  }

  predicate IsSoundClaim(c: Claim) {
    && IsHex(c.vaultPolicy, 28) && IsHex(c.termsHash, 32) && IsAt(c.requestRef) && IsAt(c.stateRef)
    && IsLocated(c.receiver.address) && IsNamed(c.asset)
    && 1 <= c.economicQuantity && IsAmount(c.economicQuantity) && 1 <= c.carriedLovelace && IsAmount(c.carriedLovelace)
    && (c.asset == Ada ==> IsAmount(c.economicQuantity + c.carriedLovelace))
  }

  lemma RecoveryMeans(r: Recovery)
    ensures RecoveryShape(r) <==> IsSoundRecovery(r)
  {
    hide ParseHexOf, IsHex;
    AllHexMeans();
  }

  lemma BodyMeans(b: RequestBody)
    ensures BodyShape(b) <==> IsSoundBody(b)
  {
    hide ParseHexOf, IsHex;
    AllHexMeans();
  }

  lemma ClaimMeans(c: Claim)
    ensures ClaimShape(c) <==> IsSoundClaim(c)
  {
    hide ParseHexOf, IsHex, IsAsset, IsNamed;
    AllHexMeans();
    NamedMeans(c.asset);
  }

  /** What a Request puts in escrow besides ADA: the underlying asset for a deposit, shares for a redemption. */
  function Offered(request: Request, terms: Terms): Asset {
    match request.body.kind
    case DepositRequest => AssetId(terms.underlying)
    case RedeemRequest => Native(Lower(request.recovery.vaultPolicy), "5348415245")
  }

  lemma OfferedMeans(request: Request, terms: Terms, a: Asset)
    requires IsSoundRecovery(request.recovery)
    ensures EntrySum(RequestEntries(request, terms), a)
      == When(a == Ada, request.body.storageLovelace + request.body.executionBudget) + When(a == Offered(request, terms), request.body.offered)
    ensures IsNamed(EscrowAsset(request, terms)) <==> (request.body.kind == DepositRequest ==> IsNamed(terms.underlying))
  {
    hide TokenHex, Lower, IsNamed, IsHex, IsLocated;
    var entries := RequestEntries(request, terms);
    SumOfTwo(entries[0], entries[1], a);
    TokenNamesAreSpelled();
    OwnAssetId(request.recovery.vaultPolicy, ShareToken);
    NameIsNamed(request.recovery.vaultPolicy, ShareToken);
  }

  lemma EscrowMeans(value: Value, request: Request, terms: Terms)
    requires IsSoundRecovery(request.recovery) && IsSoundBody(request.body)
    ensures RequestValue(request, terms).Ok? && AssertSameValue(value, RequestValue(request, terms).value).Pass? <==>
      && (request.body.kind == DepositRequest ==> IsNamed(terms.underlying)) && IsCanonical(value)
      && forall a :: Qty(value, a)
           == When(a == Ada, request.body.storageLovelace + request.body.executionBudget)
            + When(a == Offered(request, terms), request.body.offered)
  {
    hide IsSoundRecovery, IsHex, IsLocated, IsCanonical, IsNamed, AssertSameValue, ValueOf, EntrySum, Offered, EscrowAsset, When;
    var entries := RequestEntries(request, terms);
    assert IsAmount(entries[0].1) && IsAmount(entries[1].1);
    EquationIsExact(value, entries);
    forall a
      ensures EntrySum(entries, a)
        == When(a == Ada, request.body.storageLovelace + request.body.executionBudget) + When(a == Offered(request, terms), request.body.offered)
    {
      OfferedMeans(request, terms, a);
    }
    OfferedMeans(request, terms, Ada);
    AdaIsNamed();
    forall e <- entries ensures e == entries[0] || e == entries[1] {
    }
    assert entries[0] in entries && entries[1] in entries;
  }

  lemma AdaIsNamed()
    ensures IsNamed(Ada)
  {
  }

  /**
   * A Request is eligible exactly when it is custody at the vault's script, its Recovery and body are sound and name this
   * vault and these Terms, the whole interval ends by its deadline, and it holds exactly its escrow.
   */
  lemma EligibleMeans(candidate: BatchRequest, deployment: Deployment, terms: Terms, upperPosixMs: int, request: Request)
    ensures EligibleRequest(candidate, deployment, terms, upperPosixMs) == Ok(request) <==>
      && IsAmount(candidate.claimTopup) && IsHeldBy(candidate.input, deployment.policy)
      && candidate.input.datum == RequestDatum(request) && IsSoundRecovery(request.recovery) && IsSoundBody(request.body)
      && Matches(request.recovery.vaultPolicy, deployment.policy) && Matches(request.body.termsHash, deployment.termsHash)
      && upperPosixMs <= request.recovery.deadlinePosixMs
      && (request.body.kind == DepositRequest ==> IsNamed(terms.underlying))
      && forall a :: Qty(candidate.input.value, a)
           == When(a == Ada, request.body.storageLovelace + request.body.executionBudget)
            + When(a == Offered(request, terms), request.body.offered)
  {
    hide AssertProtectedInput, IsHeldBy, RecoveryShape, BodyShape, IsSoundRecovery, IsSoundBody, SameHex, Matches, RequestValue,
      AssertSameValue, IsNamed, IsCanonical, Offered, When, Qty;
    HeldByMeans(candidate.input, deployment.policy);
    AllMatchMeans();
    RecoveryMeans(request.recovery);
    BodyMeans(request.body);
    if IsHeldBy(candidate.input, deployment.policy) {
      HeldIsCanonical(candidate.input, deployment.policy);
    }
    if IsSoundRecovery(request.recovery) && IsSoundBody(request.body) {
      EscrowMeans(candidate.input.value, request, terms);
    }
  }

  /** A Claim can be delivered exactly when it is custody at the Claim script under a sound Claim; what it holds is paid as it is. */
  lemma DeliverMeans(source: ProtectedInput, claimScript: Hex)
    ensures DeliverOutput(source, claimScript).Ok? <==>
      IsHeldBy(source, claimScript) && source.datum.ClaimDatum? && IsSoundClaim(source.datum.claim)
  {
    hide AssertProtectedInput, IsHeldBy, ClaimShape, IsHex, ParseHexOf, IsNamed, IsActual, IsCanonical;
    HeldByMeans(source, claimScript);
    AllHexMeans();
    CanonicalMeans(source.value);
    if IsHeldBy(source, claimScript) {
      HeldIsCanonical(source, claimScript);
    }
    if source.datum.ClaimDatum? {
      ClaimMeans(source.datum.claim);
    }
  }

  /** A finite interval of nonnegative times. */
  predicate IsInterval(bounds: TimeBounds) {
    0 <= bounds.lowerPosixMs < bounds.upperPosixMs <= 9_223_372_036_854_775_807
  }

  /** The Recovery that an escrow datum carries, readable economics or not. */
  predicate Carries(datum: Datum, recovery: Recovery) {
    || (datum.RequestDatum? && datum.request.recovery == recovery)
    || (datum.RecoveryDatum? && datum.recovery == recovery)
  }

  lemma RecoveryOfMeans(datum: Datum, recovery: Recovery)
    ensures RecoveryOf(datum) == Ok(recovery) <==> Carries(datum, recovery) && IsSoundRecovery(recovery)
  {
    hide RecoveryShape, IsSoundRecovery;
    RecoveryMeans(recovery);
  }

  /**
   * A refund exists exactly for custody at the vault's script under a sound Recovery of this vault, free of its STATE and ID
   * tokens, over a finite interval that, for an expiry, starts at or after the deadline.
   */
  lemma RefundMeans(deployment: Deployment, source: ProtectedInput, recovery: Recovery, mode: RefundMode, validity: TimeBounds)
    requires Carries(source.datum, recovery)
    ensures RefundPlan(deployment, source, mode, validity).Ok? <==>
      && deployment.family == Ctvs2 && deployment.claimScript.Some? && IsHeldBy(source, deployment.policy)
      && IsSoundRecovery(recovery) && Matches(recovery.vaultPolicy, deployment.policy)
      && Qty(source.value, Native(Lower(deployment.policy), "5354415445")) == 0
      && Qty(source.value, Native(Lower(deployment.policy), "4944")) == 0
      && IsInterval(validity) && (mode == Expiry ==> recovery.deadlinePosixMs <= validity.lowerPosixMs)
  {
    hide AssertProtectedInput, IsHeldBy, RecoveryShape, IsSoundRecovery, SameHex, Matches, Qty, Lower, TokenHex, OwnAsset, AssetId,
      ValidPlan, IsAddress, IsActual;
    HeldByMeans(source, deployment.policy);
    MatchMeans(recovery.vaultPolicy, deployment.policy);
    RecoveryMeans(recovery);
    RecoveryOfMeans(source.datum, recovery);
    TokenNamesAreSpelled();
    OwnAssetId(deployment.policy, StateToken);
    OwnAssetId(deployment.policy, IdToken);
    if IsHeldBy(source, deployment.policy) && deployment.family == Ctvs2 && deployment.claimScript.Some? && IsSoundRecovery(recovery)
      && Matches(recovery.vaultPolicy, deployment.policy)
      && Qty(source.value, AssetId(OwnAsset(deployment.policy, StateToken))) == 0
      && Qty(source.value, AssetId(OwnAsset(deployment.policy, IdToken))) == 0
    {
      RefundExists(deployment, source, recovery, mode, validity);
    }
  }

  /** A refund plan spends its source alone; a cancellation is signed by the controller, an expiry by nobody. */
  lemma RefundLayout(deployment: Deployment, source: ProtectedInput, recovery: Recovery, mode: RefundMode, validity: TimeBounds, plan: Plan)
    requires RefundPlan(deployment, source, mode, validity) == Ok(plan) && Carries(source.datum, recovery)
    ensures |plan.outputs| == 1 && PaysTo(plan.outputs[0], recovery.refund) && plan.outputs[0].role == RefundOutput
    ensures plan == Plan(
      RefundOperation(mode), deployment,
      [PlanInput(source.ref, RequestInput, Some(RequestAction(Refund(mode, 0))))], [], plan.outputs, [],
      if mode == Cancel then [recovery.controller] else [], Some(validity))
  {
    hide AssertProtectedInput, RecoveryShape, SameHex, Qty, TokenHex, OwnAsset, AssetId, ValidPlan, IsAddress, IsActual, FiniteValidity;
  }

  lemma BuiltIsBounded(entries: seq<(Asset, int)>)
    requires ValueOf(entries).Ok?
    ensures forall e <- entries :: IsNamed(e.0) && IsAmount(e.1)
    ensures forall a :: EntrySum(entries, a) <= 9_223_372_036_854_775_807
  {
    hide IsAsset, IsNamed, AddEntries;
    EntriesAreGood(map[], entries);
    forall e <- entries ensures IsNamed(e.0) && IsAmount(e.1) {
      NamedMeans(e.0);
    }
    ValueOfMeans(entries);
    CustodyIsBounded(ValueOf(entries).value);
    forall a ensures EntrySum(entries, a) <= 9_223_372_036_854_775_807 {
      assert EntrySum(entries, a) == Qty(ValueOf(entries).value, a);
    }
  }

  lemma BoundedIsBuilt(entries: seq<(Asset, int)>)
    requires forall e <- entries :: IsNamed(e.0) && IsAmount(e.1)
    requires forall a :: EntrySum(entries, a) <= 9_223_372_036_854_775_807
    ensures ValueOf(entries).Ok?
  {
    hide IsAsset, IsNamed, AddEntries;
    forall e <- entries ensures IsAsset(e.0) && IsQuantity(e.1) {
      NamedMeans(e.0);
    }
    forall a ensures 0 <= Qty(map[], a) && Qty(map[], a) + EntrySum(entries, a) <= Q_MAX {
      SumsAreNonnegative(entries, a);
    }
    GoodEntriesAdd(map[], entries);
  }

  lemma CustodyIsBounded(v: Value)
    requires IsCustody(v)
    ensures forall a :: Qty(v, a) <= 9_223_372_036_854_775_807
    ensures IsActual(v)
  {
    hide IsAsset;
  }

  /** The value of a planned Request exists unless ADA offered on top of its ADA would leave the range. */
  lemma EscrowExists(request: Request, terms: Terms)
    requires IsSoundRecovery(request.recovery) && IsSoundBody(request.body) && IsNamed(terms.underlying)
    ensures RequestValue(request, terms).Ok? <==>
      (request.body.kind == DepositRequest && terms.underlying == Ada ==>
         IsAmount(request.body.storageLovelace + request.body.executionBudget + request.body.offered))
  {
    hide IsSoundRecovery, IsHex, IsLocated, IsNamed, ValueOf, EntrySum, EscrowAsset;
    var entries := RequestEntries(request, terms);
    if ValueOf(entries).Ok? {
      BuiltIsBounded(entries);
    }
    OfferedMeans(request, terms, Ada);
    AdaIsNamed();
    forall e <- entries ensures e == entries[0] || e == entries[1] {
    }
    forall a
      ensures EntrySum(entries, a)
        == When(a == Ada, request.body.storageLovelace + request.body.executionBudget) + When(a == Offered(request, terms), request.body.offered)
    {
      OfferedMeans(request, terms, a);
    }
    if request.body.kind == DepositRequest && terms.underlying == Ada ==>
      IsAmount(request.body.storageLovelace + request.body.executionBudget + request.body.offered)
    {
      BoundedIsBuilt(entries);
    } else {
      assert EntrySum(entries, Ada) == request.body.storageLovelace + request.body.executionBudget + request.body.offered;
    }
  }

  /**
   * A Request can be created exactly in a deployed request-path vault that advertises its direction, under sound recovery
   * and economics that name the vault and its Terms. Nothing of the State is asked: a paused vault still takes Requests.
   */
  lemma RequestPlanMeans(context: Context, request: Request)
    ensures BuildRequestPlan(context, request).Ok? <==>
      && IsDeployed(context, Ctvs2) && IsAt(context.deployment.configRef)
      && IsSoundRecovery(request.recovery) && IsSoundBody(request.body)
      && Matches(request.recovery.vaultPolicy, context.deployment.policy)
      && Matches(request.body.termsHash, context.deployment.termsHash)
      && context.terms.executionModes in (if request.body.kind == DepositRequest then {4, 12} else {8, 12})
      && (request.body.kind == DepositRequest && context.terms.underlying == Ada ==>
            IsAmount(request.body.storageLovelace + request.body.executionBudget + request.body.offered))
  {
    hide ConsistentContext, RecoveryShape, BodyShape, IsSoundRecovery, IsSoundBody, SameHex, Matches, RequestValue, IsHex, ParseHexOf,
      IsNamed, IsSupported, IsAmount, IsActual, Output, ValidPlan, IsAt;
    DeployedMeans(context, Ctvs2);
    AllMatchMeans();
    AllHexMeans();
    RecoveryMeans(request.recovery);
    BodyMeans(request.body);
    if IsDeployed(context, Ctvs2) && IsSoundRecovery(request.recovery) && IsSoundBody(request.body) {
      DeployedHasNamed(context, Ctvs2);
      EscrowExists(request, context.terms);
      if RequestValue(request, context.terms).Ok? {
        EscrowIsCustody(request, context.terms);
        RequestPlanIsValid(context.deployment, RequestValue(request, context.terms).value, RequestDatum(request));
      }
    }
  }

  lemma RequestPlanIsValid(deployment: Deployment, escrow: Value, datum: Datum)
    requires IsActual(escrow) && IsHex(deployment.policy, 28)
    ensures
      var output := Output(RequestOutput, ScriptDestination(deployment.policy), escrow, Some(datum));
      && output.Ok?
      && (ValidPlan(Plan(CreateRequest, deployment, [], [deployment.configRef], [output.value], [], [], None)) <==>
            IsAt(deployment.configRef))
  {
    hide ParseHexOf, IsHex, IsActual;
    AllHexMeans();
    OutputIsValid(RequestOutput, ScriptDestination(deployment.policy), escrow, Some(datum));
    var output := Output(RequestOutput, ScriptDestination(deployment.policy), escrow, Some(datum)).value;
    var plan := Plan(CreateRequest, deployment, [], [deployment.configRef], [output], [], [], None);
    assert plan.referenceInputs[0] == deployment.configRef && IsReference(deployment.configRef) <==> IsAt(deployment.configRef);
    assert forall i :: 0 <= i < |plan.outputs| ==> ValidOutput(plan.outputs[i]);
  }

  lemma EscrowIsCustody(request: Request, terms: Terms)
    requires RequestValue(request, terms).Ok?
    ensures IsActual(RequestValue(request, terms).value)
  {
    hide RequestEntries, ValueOf;
    ValueOfMeans(RequestEntries(request, terms));
    CustodyIsBounded(RequestValue(request, terms).value);
  }

  /** The plan of a Request spends and mints nothing and is signed by nobody. */
  lemma RequestLayout(context: Context, request: Request, plan: Plan)
    requires BuildRequestPlan(context, request) == Ok(plan)
    ensures |plan.outputs| == 1 && plan.outputs[0].role == RequestOutput && plan.outputs[0].datum == Some(RequestDatum(request))
    ensures plan.outputs[0].address == Address(Credential(Script, context.deployment.policy), None)
    ensures plan == Plan(CreateRequest, context.deployment, [], [context.deployment.configRef], plan.outputs, [], [], None)
  {
    hide ConsistentContext, RecoveryShape, BodyShape, SameHex, RequestValue, ValidPlan, IsAddress, IsActual;
  }

  /** Claims can be delivered together exactly when they are 1 to 16 distinct Claims, each deliverable. */
  lemma DeliveryMeans(deployment: Deployment, claims: seq<ProtectedInput>)
    ensures BuildDeliverPlan(deployment, claims).Ok? <==>
      && 1 <= |claims| <= 16 && deployment.family == Ctvs2 && deployment.claimScript.Some?
      && (forall c <- claims ::
            IsHeldBy(c, deployment.claimScript.value) && c.datum.ClaimDatum? && IsSoundClaim(c.datum.claim))
      && forall i, j :: 0 <= i < j < |claims| ==>
           Lower(claims[i].ref.txId) != Lower(claims[j].ref.txId) || claims[i].ref.index != claims[j].ref.index
  {
    hide BuildDeliverPlan, DeliverOutput, ParseHexOf, IsHex, IsSoundClaim, IsCanonical, Lower;
    DeliveryExists(deployment, claims);
    AllHexMeans();
    if deployment.claimScript.Some? {
      forall c <- claims
        ensures DeliverOutput(c, deployment.claimScript.value).Ok?
           <==> IsHeldBy(c, deployment.claimScript.value) && c.datum.ClaimDatum? && IsSoundClaim(c.datum.claim)
      {
        DeliverMeans(c, deployment.claimScript.value);
      }
    }
    IdsDistinct(claims);
    forall i | 0 <= i < |claims| ensures claims[i] in claims {
    }
  }

  lemma IdsDistinct(claims: seq<ProtectedInput>)
    ensures Distinct(Ids(claims, SourceRef)) <==>
      forall i, j :: 0 <= i < j < |claims| ==>
        Lower(claims[i].ref.txId) != Lower(claims[j].ref.txId) || claims[i].ref.index != claims[j].ref.index
  {
    hide Lower;
    var ids := Ids(claims, SourceRef);
    forall i | 0 <= i < |claims| ensures ids[i] == OutRef(Lower(claims[i].ref.txId), claims[i].ref.index) {
    }
    if Distinct(ids) {
      forall i, j | 0 <= i < j < |claims|
        ensures Lower(claims[i].ref.txId) != Lower(claims[j].ref.txId) || claims[i].ref.index != claims[j].ref.index
      {
        assert ids[i] != ids[j];
      }
    }
  }

  /** Delivery spends its Claims in reference order, pays each whole to its own receiver, and needs nobody's signature. */
  lemma DeliveryLayout(deployment: Deployment, claims: seq<ProtectedInput>, sorted: seq<ProtectedInput>, plan: Plan)
    requires BuildDeliverPlan(deployment, claims) == Ok(plan) && SortedReferences(claims, SourceRef) == Ok(sorted)
    ensures Sorted(sorted, SourceRef) && multiset(sorted) == multiset(claims) && |plan.outputs| == |plan.inputs| == |sorted|
    ensures plan == Plan(DeliverOperation, deployment, plan.inputs, [], plan.outputs, [], [], None)
    ensures forall i :: 0 <= i < |sorted| ==>
      && sorted[i].datum.ClaimDatum? && PaysTo(plan.outputs[i], sorted[i].datum.claim.receiver)
      && (forall a :: Qty(plan.outputs[i].value, a) == Qty(sorted[i].value, a))
      && plan.inputs[i].ref == sorted[i].ref && plan.inputs[i].role == ClaimInput && plan.inputs[i].redeemer.Some?
      && plan.inputs[i].redeemer.value.ClaimAction? && |plan.inputs[i].redeemer.value.claim.deliveries| == |sorted|
      && forall j :: 0 <= j < |sorted| ==> plan.inputs[i].redeemer.value.claim.deliveries[j] == DeliverEntry(sorted[j].ref, j)
  {
    hide DeliverOutput, ValidPlan, Qty, Sorted, SortItems, DeliverOutputs, PaysTo;
    SortedReferencesIsCanonical(claims, claims, SourceRef);
    DeliveredOutputs(sorted, deployment.claimScript.value);
  }

  lemma {:induction false} DeliveredOutputs(sources: seq<ProtectedInput>, claimScript: Hex)
    requires DeliverOutputs(sources, claimScript).Ok?
    ensures forall i :: 0 <= i < |sources| ==>
      && sources[i].datum.ClaimDatum?
      && PaysTo(DeliverOutputs(sources, claimScript).value[i], sources[i].datum.claim.receiver)
      && forall a :: Qty(DeliverOutputs(sources, claimScript).value[i].value, a) == Qty(sources[i].value, a)
  {
    hide PaysTo, Qty, AssertProtectedInput, ClaimShape, Output;
    if sources != [] {
      DeliveredOutputs(sources[..|sources| - 1], claimScript);
    }
  }

  lemma FreshStateIsValid(state: State, terms: Terms)
    requires IsSupported(terms) && 1 <= state.storageLovelace && IsAmount(state.storageLovelace)
    requires state == State(state.vaultPolicy, state.termsHash, 0, 0, 0, 0, state.storageLovelace, 0)
    ensures ValidEconomics(state, terms)
  {
    hide IsHex, IsNamed, IsLocated, IsMembership;
    ValidEconomicsMeans(state, terms);
  }

  lemma ConfigCustody(policy: Hex, reserve: int)
    requires IsHex(policy, 28) && IsAmount(reserve)
    ensures
      var custody := ValueOf([(Ada, reserve), (OwnAsset(policy, IdToken), 1)]);
      && custody.Ok? && IsActual(custody.value)
      && forall a :: Qty(custody.value, a) == When(a == Ada, reserve) + When(a == Native(Lower(policy), "4944"), 1)
  {
    hide IsHex, IsNamed, EntrySum, TokenHex, Lower;
    var entries := [(Ada, reserve), (OwnAsset(policy, IdToken), 1)];
    NameIsNamed(policy, IdToken);
    AdaIsNamed();
    TokenNamesAreSpelled();
    OwnAssetId(policy, IdToken);
    forall a ensures EntrySum(entries, a) == When(a == Ada, reserve) + When(a == Native(Lower(policy), "4944"), 1) {
      SumOfTwo(entries[0], entries[1], a);
    }
    BoundedIsBuilt(entries);
    ValueOfMeans(entries);
    CustodyIsBounded(ValueOf(entries).value);
  }

  lemma FreshCustody(state: State, terms: Terms)
    requires IsHex(state.vaultPolicy, 28) && IsNamed(terms.underlying) && IsAmount(state.storageLovelace)
    requires state.backingAssets == 0 && state.accruedFees == 0
    ensures StateValue(state, terms).Ok? && IsActual(StateValue(state, terms).value)
    ensures forall a ::
      Qty(StateValue(state, terms).value, a) == When(a == Ada, state.storageLovelace) + When(a == Native(Lower(state.vaultPolicy), "5354415445"), 1)
  {
    hide IsHex, IsNamed, EntrySum, TokenHex, Lower;
    var entries := StateEntries(state, terms);
    NameIsNamed(state.vaultPolicy, StateToken);
    AdaIsNamed();
    TokenNamesAreSpelled();
    OwnAssetId(state.vaultPolicy, StateToken);
    forall a ensures EntrySum(entries, a)
      == When(a == Ada, state.storageLovelace) + When(a == Native(Lower(state.vaultPolicy), "5354415445"), 1)
    {
      SumOfThree(entries[0], entries[1], entries[2], a);
    }
    BoundedIsBuilt(entries);
    ValueOfMeans(entries);
    CustodyIsBounded(ValueOf(entries).value);
  }

  /** The plan that creates a vault: Config custody, State custody, and one ID and one STATE token, minted against the seed. */
  function GenesisPlanOf(context: Context, seed: OutRef, outputs: seq<PlannedOutput>): Plan {
    Plan(
      Genesis, context.deployment, [PlanInput(seed, GenesisSeed, None)], [], outputs,
      [PlannedMint(context.deployment.policy, map["4944" := 1, "5354415445" := 1], Initialize(0, 1))], [], None)
  }

  lemma GenesisMintIsValid(deployment: Deployment)
    requires IsHex(deployment.policy, 28)
    ensures ValidMint(PlannedMint(deployment.policy, map["4944" := 1, "5354415445" := 1], Initialize(0, 1)), deployment)
  {
    hide IsHex, ParseHexOf, ParseHex, Lower, TokenHex;
    AllHexMeans();
    TokenNamesAreSpelled();
    TokenNamesAreCanonical(IdToken, StateToken);
    TokenNamesAreCanonical(StateToken, IdToken);
  }

  lemma GenesisPlanIsValid(family: Family, context: Context, seed: OutRef, outputs: seq<PlannedOutput>)
    requires IsDeployed(context, family) && IsAt(seed) && |outputs| == 2 && ValidOutput(outputs[0]) && ValidOutput(outputs[1])
    ensures ValidPlan(GenesisPlanOf(context, seed, outputs))
  {
    hide ParseHexOf, IsHex, ValidOutput, IsSupported, ValidMint, Matches, RedeemerShape, Lower;
    AllHexMeans();
    GenesisMintIsValid(context.deployment);
  }

  /** A vault can be planned exactly in a deployed context, from a well-formed seed, with positive reserves. */
  lemma GenesisMeans(family: Family, context: Context, seed: OutRef, configReserve: int, stateReserve: int)
    ensures CreateGenesisPlan(family, context, seed, configReserve, stateReserve).Ok? <==>
      && IsDeployed(context, family) && IsAt(seed)
      && 1 <= configReserve && IsAmount(configReserve) && 1 <= stateReserve && IsAmount(stateReserve)
    ensures CreateGenesisPlan(family, context, seed, configReserve, stateReserve).Ok? ==>
      var StatePlan(plan, state) := CreateGenesisPlan(family, context, seed, configReserve, stateReserve).value;
      var d := context.deployment;
      && state == State(d.policy, d.termsHash, 0, 0, 0, 0, stateReserve, 0)
      && |plan.outputs| == 2 && plan == GenesisPlanOf(context, seed, plan.outputs)
      && plan.outputs[0].address == Address(Credential(Script, d.configLock), None)
      && plan.outputs[0].datum == Some(ConfigDatum(Config(d.policy, seed, d.termsHash, context.terms, configReserve)))
      && (forall a :: Qty(plan.outputs[0].value, a) == When(a == Ada, configReserve) + When(a == Native(Lower(d.policy), "4944"), 1))
      && plan.outputs[1].address == Address(Credential(Script, d.policy), None) && plan.outputs[1].datum == Some(StateDatum(state))
      && (forall a :: Qty(plan.outputs[1].value, a)
            == When(a == Ada, stateReserve) + When(a == Native(Lower(d.policy), "5354415445"), 1))
  {
    hide ConsistentContext, IsDeployed, IsHex, ParseHexOf, ValidEconomics, StateValue, ValueOf, OwnAsset, ValidPlan, TokenHex, Qty, IsActual,
      IsSupported, IsNamed, When, Lower;
    DeployedMeans(context, family);
    AllHexMeans();
    TokenNamesAreSpelled();
    if IsDeployed(context, family) && IsAt(seed) && 1 <= configReserve && IsAmount(configReserve) && 1 <= stateReserve && IsAmount(stateReserve) {
      var d := context.deployment;
      var state := State(d.policy, d.termsHash, 0, 0, 0, 0, stateReserve, 0);
      DeployedHasNamed(context, family);
      DeployedIsHex(context, family);
      FreshStateIsValid(state, context.terms);
      ConfigCustody(d.policy, configReserve);
      FreshCustody(state, context.terms);
      var custody := ValueOf([(Ada, configReserve), (OwnAsset(d.policy, IdToken), 1)]).value;
      var config := Config(d.policy, seed, d.termsHash, context.terms, configReserve);
      OutputIsValid(ConfigOutput, ScriptDestination(d.configLock), custody, Some(ConfigDatum(config)));
      OutputIsValid(StateOutput, ScriptDestination(d.policy), StateValue(state, context.terms).value, Some(StateDatum(state)));
      var outputs := [
        Output(ConfigOutput, ScriptDestination(d.configLock), custody, Some(ConfigDatum(config))).value,
        StateUpdate(context, state).value];
      GenesisPlanIsValid(family, context, seed, outputs);
    }
  }

  lemma DeployedIsHex(context: Context, family: Family)
    requires IsDeployed(context, family)
    ensures IsHex(context.deployment.policy, 28) && IsHex(context.deployment.configLock, 28) && IsSupported(context.terms)
  {
    hide IsHex, Matches, IsSupported;
  }
}
