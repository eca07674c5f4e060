/** Per-Request eligibility, pricing at one snapshot, and gross-flow totals. */
module Settlement {
  import opened Results
  import opened Types
  import opened Arithmetic
  import opened HexStrings
  import opened References
  import opened Values
  import opened Quotes
  import opened Transitions
  import opened Planning

  /** `claimTopup` is external lovelace carried by this Request's Claim. */
  datatype BatchRequest = BatchRequest(input: ProtectedInput, claimTopup: int)

  datatype SettledRequest = SettledRequest(
    source: ProtectedInput,
    request: Request,
    quote: Quote,
    claim: Claim,
    claimTopup: int)

  datatype Totals = Totals(
    depositedGross: int,
    depositedNet: int,
    redeemedGross: int,
    redeemedNet: int,
    issued: int,
    burned: int,
    fees: int,
    reward: int)

  const EMPTY_TOTALS := Totals(0, 0, 0, 0, 0, 0, 0, 0)

  function OperationOf(kind: RequestKind): Operation {
    if kind.DepositRequest? then Deposit else Redeem
  }

  function RequestOf(datum: Datum): Result<Request> {
    if datum.RequestDatum? && RecoveryShape(datum.request.recovery) && BodyShape(datum.request.body)
    then Ok(datum.request) else Err(InvalidShape)
  }

  /** Everything about a Request but its price: custody, deployment, deadline and exact escrow. */
  function EligibleRequest(candidate: BatchRequest, deployment: Deployment, terms: Terms, upperPosixMs: int): Result<Request> {
    var source := candidate.input;
    var _ :- Quantity(candidate.claimTopup);
    :- AssertProtectedInput(source, deployment.policy);
    var request :- RequestOf(source.datum);
    :- Need(SameHex(request.recovery.vaultPolicy, deployment.policy), BindingMismatch);
    :- Need(SameHex(request.body.termsHash, deployment.termsHash), BindingMismatch);
    :- Need(upperPosixMs <= request.recovery.deadlinePosixMs, DeadlineExceeded);
    var escrow :- RequestValue(request, terms);
    :- AssertSameValue(source.value, escrow);
    Ok(request)
  }

  /** What the Request's receiver is owed: issued shares for a deposit, net assets for a redemption. */
  function Economic(quote: Quote): int {
    if quote.operation.IsEntry() then quote.shares else quote.netAssets
  }

  /** The price of one Request at the snapshot: an enabled direction and a positive quote that meets its minimum. */
  function SettlementQuote(body: RequestBody, state: State, terms: Terms): (r: Result<Quote>)
    ensures r.Ok? ==>
      && Preview(OperationOf(body.kind), body.offered, state, terms) == r
      && 0 < r.value.grossAssets && 0 < r.value.netAssets && 0 < r.value.shares
      && body.minimumOutput <= Economic(r.value)
    ensures r.Ok? <==>
      var quote := Preview(OperationOf(body.kind), body.offered, state, terms);
      && AssertEnabled(state, terms, body.kind.DepositRequest?, true).Pass?
      && quote.Ok? && 0 < quote.value.shares && 0 < quote.value.netAssets && body.minimumOutput <= Economic(quote.value)
  {
    var operation := OperationOf(body.kind);
    :- AssertEnabled(state, terms, operation.IsEntry(), true);
    var quote :- Preview(operation, body.offered, state, terms);
    var _ :- Positive(quote.shares);
    var _ :- Positive(quote.netAssets);
    var _ :- Positive(quote.grossAssets);
    var _ :- Quantity(quote.fee);
    :- Need(Economic(quote) >= body.minimumOutput, BoundViolated);
    Ok(quote)
  }

  /** The Claim of a settlement: only the settler fee leaves the Request's ADA. */
  function ClaimOf(
    source: ProtectedInput, request: Request, quote: Quote, claimTopup: int, deployment: Deployment, stateRef: OutRef, terms: Terms
  ): Claim {
    var body := request.body;
    Claim(
      deployment.policy,
      source.ref,
      stateRef,
      deployment.termsHash,
      if body.kind.DepositRequest? then OwnAsset(deployment.policy, ShareToken) else terms.underlying,
      Economic(quote),
      body.receiver,
      body.storageLovelace + body.executionBudget - body.settlerFee + claimTopup)
  }

  function SettleRequest(
    candidate: BatchRequest, deployment: Deployment, state: State, stateRef: OutRef, terms: Terms, upperPosixMs: int
  ): Result<SettledRequest> {
    var request :- EligibleRequest(candidate, deployment, terms, upperPosixMs);
    var quote :- SettlementQuote(request.body, state, terms);
    var claim := ClaimOf(candidate.input, request, quote, candidate.claimTopup, deployment, stateRef, terms);
    Ok(SettledRequest(candidate.input, request, quote, claim, candidate.claimTopup))
  }

  function Accumulated(t: Totals, settled: SettledRequest): Totals {
    var quote := settled.quote;
    var flows :=
      if settled.request.body.kind.DepositRequest? then
        t.(depositedGross := t.depositedGross + quote.grossAssets,
           depositedNet := t.depositedNet + quote.netAssets,
           issued := t.issued + quote.shares)
      else
        t.(redeemedGross := t.redeemedGross + quote.grossAssets,
           redeemedNet := t.redeemedNet + quote.netAssets,
           burned := t.burned + quote.shares);
    flows.(fees := t.fees + quote.fee, reward := t.reward + settled.request.body.settlerFee)
  }

  predicate TotalsInRange(t: Totals) {
    && IsQuantity(t.depositedGross) && IsQuantity(t.depositedNet)
    && IsQuantity(t.redeemedGross) && IsQuantity(t.redeemedNet)
    && IsQuantity(t.issued) && IsQuantity(t.burned)
    && IsQuantity(t.fees) && IsQuantity(t.reward)
  }

  function TotalsOf(settled: seq<SettledRequest>): Totals {
    if settled == [] then EMPTY_TOTALS
    else Accumulated(TotalsOf(settled[..|settled| - 1]), settled[|settled| - 1])
  }

  /** The accumulator of a batch. A bound that fails leaves the additions in place; the caller discards it. */
  class BatchTotals {
    var depositedGross: int
    var depositedNet: int
    var redeemedGross: int
    var redeemedNet: int
    var issued: int
    var burned: int
    var fees: int
    var reward: int

    function Contents(): Totals
      reads this
    {
      Totals(depositedGross, depositedNet, redeemedGross, redeemedNet, issued, burned, fees, reward)
    }

    constructor ()
      ensures Contents() == EMPTY_TOTALS
    {
      depositedGross, depositedNet, redeemedGross, redeemedNet := 0, 0, 0, 0;
      issued, burned, fees, reward := 0, 0, 0, 0;
    }

    method Accumulate(settled: SettledRequest) returns (ok: bool)
      modifies this
      ensures Contents() == Accumulated(old(Contents()), settled)
      ensures ok <==> TotalsInRange(Contents())
    {
      if settled.request.body.kind.DepositRequest? {
        depositedGross := depositedGross + settled.quote.grossAssets;
        depositedNet := depositedNet + settled.quote.netAssets;
        issued := issued + settled.quote.shares;
      } else {
        redeemedGross := redeemedGross + settled.quote.grossAssets;
        redeemedNet := redeemedNet + settled.quote.netAssets;
        burned := burned + settled.quote.shares;
      }
      fees := fees + settled.quote.fee;
      reward := reward + settled.request.body.settlerFee;
      ok := TotalsInRange(Contents());
    }
  }

  /** Settlements in order, each priced against the same State, with every running total in range. */
  function Settlements(
    sorted: seq<BatchRequest>, deployment: Deployment, state: State, stateRef: OutRef, terms: Terms, upperPosixMs: int
  ): Result<seq<SettledRequest>> {
    if sorted == [] then Ok([])
    else
      var earlier :- Settlements(sorted[..|sorted| - 1], deployment, state, stateRef, terms, upperPosixMs);
      var last :- SettleRequest(sorted[|sorted| - 1], deployment, state, stateRef, terms, upperPosixMs);
      :- Need(TotalsInRange(TotalsOf(earlier + [last])), OutOfRange);
      Ok(earlier + [last])
  }

  lemma {:induction false} SettlementsFailEarly(
    sorted: seq<BatchRequest>, k: nat, deployment: Deployment, state: State, stateRef: OutRef, terms: Terms, upperPosixMs: int)
    requires k <= |sorted|
    requires Settlements(sorted[..k], deployment, state, stateRef, terms, upperPosixMs).Err?
    ensures Settlements(sorted, deployment, state, stateRef, terms, upperPosixMs)
         == Settlements(sorted[..k], deployment, state, stateRef, terms, upperPosixMs)
  {
    if k < |sorted| {
      assert sorted[..|sorted| - 1][..k] == sorted[..k];
      SettlementsFailEarly(sorted[..|sorted| - 1], k, deployment, state, stateRef, terms, upperPosixMs);
    } else {
      assert sorted[..k] == sorted;
    }
  }

  /** Settlements keep the order of their requests, and each is the settlement of its own request alone. */
  lemma {:induction false} SettlementsAreIndividual(
    sorted: seq<BatchRequest>, deployment: Deployment, state: State, stateRef: OutRef, terms: Terms, upperPosixMs: int)
    requires Settlements(sorted, deployment, state, stateRef, terms, upperPosixMs).Ok?
    ensures
      var settled := Settlements(sorted, deployment, state, stateRef, terms, upperPosixMs).value;
      && |settled| == |sorted|
      && TotalsInRange(TotalsOf(settled))
      && forall i :: 0 <= i < |sorted| ==>
           SettleRequest(sorted[i], deployment, state, stateRef, terms, upperPosixMs) == Ok(settled[i])
  {
    if sorted != [] {
      SettlementsAreIndividual(sorted[..|sorted| - 1], deployment, state, stateRef, terms, upperPosixMs);
      var earlier := Settlements(sorted[..|sorted| - 1], deployment, state, stateRef, terms, upperPosixMs).value;
      var settled := Settlements(sorted, deployment, state, stateRef, terms, upperPosixMs).value;
      forall i | 0 <= i < |sorted|
        ensures SettleRequest(sorted[i], deployment, state, stateRef, terms, upperPosixMs) == Ok(settled[i])
      {
        if i < |sorted| - 1 {
          assert sorted[..|sorted| - 1][i] == sorted[i] && settled[i] == earlier[i];
        }
      }
    }
  }
}
