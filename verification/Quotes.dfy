/** Snapshot quotes: four operations, two rounding directions and two fee denominators. */
module Quotes {
  import opened Results
  import opened Types
  import opened Arithmetic

  /** The virtual price ratio x / y of a State: backing + 1 over supply + virtual shares. */
  datatype Price = Price(x: int, y: int)

  function PriceOf(state: State, terms: Terms): Price {
    Price(state.backingAssets + 1, state.economicSupply + terms.virtualShares)
  }

  /** ADA backing shares one ledger quantity with fees and reserve; native backing does not. */
  function Custody(state: State, terms: Terms): int {
    state.backingAssets + state.accruedFees + (if terms.underlying.Ada? then state.storageLovelace else 0)
  }

  predicate ValidEconomics(state: State, terms: Terms) {
    && IsQuantity(state.backingAssets)
    && IsQuantity(state.economicSupply)
    && IsQuantity(state.accruedFees)
    && IsPositive(state.storageLovelace)
    && IsQuantity(state.sequence)
    && 0 <= state.pauseFlags <= 3
    && terms.profile == 0
    && IsPositive(terms.virtualShares)
    && 0 <= terms.entryBps <= 9999
    && 0 <= terms.exitBps <= 9999
    && 1 <= terms.executionModes <= 15
    && (terms.maxBacking.Some? ==> IsQuantity(terms.maxBacking.value) && state.backingAssets <= terms.maxBacking.value)
    && IsQuantity(Custody(state, terms))
  }

  function ValidateEconomics(state: State, terms: Terms): (price: Result<Price>)
    ensures price.Ok? <==> ValidEconomics(state, terms)
    ensures price.Ok? ==> price.value == PriceOf(state, terms) && 0 < price.value.x && 0 < price.value.y
  {
    if ValidEconomics(state, terms) then Ok(PriceOf(state, terms))
    else if terms.maxBacking.Some? && state.backingAssets > terms.maxBacking.value then Err(BackingExceedsCap)
    else Err(OutOfRange)
  }

  datatype Rounding = Up | Down

  function ConvertToShares(state: State, terms: Terms, assets: int, rounding: Rounding): Result<int> {
    var Price(x, y) :- ValidateEconomics(state, terms);
    var _ :- Quantity(assets);
    Quantity(if rounding.Up? then CeilDiv(assets * y, x) else (assets * y) / x)
  }

  function ConvertToAssets(state: State, terms: Terms, shares: int, rounding: Rounding): Result<int> {
    var Price(x, y) :- ValidateEconomics(state, terms);
    var _ :- Quantity(shares);
    Quantity(if rounding.Up? then CeilDiv(shares * x, y) else (shares * x) / y)
  }

  predicate QuoteInRange(quote: Quote) {
    IsQuantity(quote.grossAssets) && IsQuantity(quote.netAssets) && IsQuantity(quote.shares) && IsQuantity(quote.fee)
  }

  /** Exact-input paths floor the output; exact-output paths ceil what the user must supply. */
  function RawQuote(operation: Operation, amount: int, price: Price, terms: Terms): Quote
    requires 0 <= amount && 0 < price.x && 0 < price.y && 0 <= terms.entryBps && 0 <= terms.exitBps
  {
    var Price(x, y) := price;
    match operation
    case Deposit =>
      var fee := CeilDiv(amount * terms.entryBps, BPS + terms.entryBps);
      var net := amount - fee;
      Quote(operation, amount, amount, net, (net * y) / x, fee)
    case Mint =>
      var net := CeilDiv(amount * x, y);
      var fee := CeilDiv(net * terms.entryBps, BPS);
      Quote(operation, amount, net + fee, net, amount, fee)
    case Withdraw =>
      var fee := CeilDiv(amount * terms.exitBps, BPS);
      var gross := amount + fee;
      Quote(operation, amount, gross, amount, CeilDiv(gross * y, x), fee)
    case Redeem =>
      var gross := (amount * x) / y;
      var fee := CeilDiv(gross * terms.exitBps, BPS + terms.exitBps);
      Quote(operation, amount, gross, gross - fee, amount, fee)
  }

  function Preview(operation: Operation, amount: int, state: State, terms: Terms): (quote: Result<Quote>)
    ensures quote.Ok? ==> ValidEconomics(state, terms) && IsQuantity(amount) && QuoteInRange(quote.value)
    ensures quote.Ok? ==> quote.value.operation == operation && quote.value.amount == amount
  {
    var price :- ValidateEconomics(state, terms);
    var _ :- Quantity(amount);
    var quote := RawQuote(operation, amount, price, terms);
    if QuoteInRange(quote) then Ok(quote) else Err(OutOfRange)
  }

  /** The quote's assets and shares stand on the vault's side of the snapshot price, and the fee separates gross from net. */
  lemma QuoteFavoursVault(operation: Operation, amount: int, state: State, terms: Terms)
    requires Preview(operation, amount, state, terms).Ok?
    ensures
      var quote := Preview(operation, amount, state, terms).value;
      var Price(x, y) := PriceOf(state, terms);
      && quote.grossAssets == quote.netAssets + quote.fee
      && (operation.IsEntry() ==> quote.shares * x <= quote.netAssets * y)
      && (!operation.IsEntry() ==> quote.grossAssets * y <= quote.shares * x)
  {
    var quote := Preview(operation, amount, state, terms).value;
    var Price(x, y) := PriceOf(state, terms);
    match operation
    case Deposit => FloorGalois(quote.netAssets * y, x, quote.shares);
    case Mint =>
    case Withdraw =>
    case Redeem => FloorGalois(amount * x, y, quote.grossAssets);
  }

  /**
   * Depositing d issues at least s shares exactly when d covers the gross price of minting s: the two
   * entry quotes are adjoint through both roundings.
   */
  lemma EntryQuotesAdjoint(d: int, s: int, state: State, terms: Terms)
    requires Preview(Deposit, d, state, terms).Ok? && Preview(Mint, s, state, terms).Ok?
    ensures Preview(Deposit, d, state, terms).value.shares >= s
       <==> d >= Preview(Mint, s, state, terms).value.grossAssets
  {
    var Price(x, y) := PriceOf(state, terms);
    var deposit := Preview(Deposit, d, state, terms).value;
    var mint := Preview(Mint, s, state, terms).value;
    FloorGalois(deposit.netAssets * y, x, s);
    CeilGalois(s * x, y, deposit.netAssets);
    FeeAdjoint(d, mint.netAssets, terms.entryBps);
  }

  /** Redeeming s pays at least a exactly when s covers the share price of withdrawing a. */
  lemma ExitQuotesAdjoint(s: int, a: int, state: State, terms: Terms)
    requires Preview(Redeem, s, state, terms).Ok? && Preview(Withdraw, a, state, terms).Ok?
    ensures Preview(Redeem, s, state, terms).value.netAssets >= a
       <==> s >= Preview(Withdraw, a, state, terms).value.shares
  {
    hide RawQuote;
    RawExitAdjoint(s, a, PriceOf(state, terms), terms);
  }

  lemma RawExitAdjoint(s: int, a: int, price: Price, terms: Terms)
    requires 0 <= s && 0 <= a && 0 < price.x && 0 < price.y && 0 <= terms.entryBps && 0 <= terms.exitBps
    requires 0 <= RawQuote(Redeem, s, price, terms).grossAssets && 0 <= RawQuote(Withdraw, a, price, terms).grossAssets
    ensures RawQuote(Redeem, s, price, terms).netAssets >= a <==> s >= RawQuote(Withdraw, a, price, terms).shares
  {
    var Price(x, y) := price;
    var redeem, withdraw := RawQuote(Redeem, s, price, terms), RawQuote(Withdraw, a, price, terms);
    FeeAdjoint(redeem.grossAssets, a, terms.exitBps);
    FloorGalois(s * x, y, withdraw.grossAssets);
    CeilGalois(withdraw.grossAssets * y, x, s);
  }

  /** A larger gross deposit quotes no less of anything, whether or not its quote is in range. */
  lemma DepositMonotone(less: int, more: int, price: Price, terms: Terms)
    requires 0 <= less <= more && 0 < price.x && 0 < price.y && 0 <= terms.entryBps && 0 <= terms.exitBps
    ensures
      var low := RawQuote(Deposit, less, price, terms);
      var high := RawQuote(Deposit, more, price, terms);
      && 0 <= low.netAssets <= high.netAssets
      && 0 <= low.shares <= high.shares
      && 0 <= low.fee <= high.fee
      && low.netAssets <= less
  {
    var low := RawQuote(Deposit, less, price, terms);
    var high := RawQuote(Deposit, more, price, terms);
    NetOfGross(less, more, terms.entryBps);
    ScaleMonotone(low.netAssets, high.netAssets, price.y, price.x);
    FloorGalois(low.netAssets * price.y, price.x, 0);
  }

  /** More of the exact input never quotes less of anything. */
  lemma QuotesMonotone(operation: Operation, less: int, more: int, state: State, terms: Terms)
    requires less <= more
    requires Preview(operation, less, state, terms).Ok? && Preview(operation, more, state, terms).Ok?
    ensures
      var low := Preview(operation, less, state, terms).value;
      var high := Preview(operation, more, state, terms).value;
      && low.grossAssets <= high.grossAssets
      && low.netAssets <= high.netAssets
      && low.shares <= high.shares
      && low.fee <= high.fee
  {
    var Price(x, y) := PriceOf(state, terms);
    var low := Preview(operation, less, state, terms).value;
    var high := Preview(operation, more, state, terms).value;
    match operation
    case Deposit =>
      DepositMonotone(less, more, Price(x, y), terms);
    case Mint =>
      ScaleMonotone(less, more, x, y);
      ScaleMonotone(low.netAssets, high.netAssets, terms.entryBps, BPS);
    case Withdraw =>
      ScaleMonotone(less, more, terms.exitBps, BPS);
      ScaleMonotone(low.grossAssets, high.grossAssets, y, x);
    case Redeem =>
      ScaleMonotone(less, more, x, y);
      NetOfGross(low.grossAssets, high.grossAssets, terms.exitBps);
  }

  /** The two roundings of n against d differ by at most one, and scaling the lower one back stays within n. */
  lemma RoundingsEnclose(n: int, from: int, to: int)
    requires 0 <= n && 0 < from && 0 < to
    ensures 0 <= CeilDiv(n * to, from) - (n * to) / from <= 1
    ensures 0 <= (n * to) / from && CeilDiv((n * to) / from * from, to) <= n
  {
    var m := n * to;
    FloorGalois(m, from, m / from);
    FloorGalois(m, from, 0);
    FloorGalois(m, from, m / from + 1);
    CeilGalois(m, from, m / from + 1);
    MulOrder(m / from, CeilDiv(m, from), from);
    CeilGalois(m / from * from, to, n);
  }

  /**
   * In either direction, the two roundings of one conversion differ by at most one unit, and converting the lower one
   * back, rounded against the caller, never gains.
   */
  lemma ConversionsEnclosePrice(state: State, terms: Terms, amount: int)
    ensures
      var down, up := ConvertToShares(state, terms, amount, Down), ConvertToShares(state, terms, amount, Up);
      down.Ok? && up.Ok? ==>
        && 0 <= up.value - down.value <= 1
        && var back := ConvertToAssets(state, terms, down.value, Up); back.Ok? && back.value <= amount
    ensures
      var down, up := ConvertToAssets(state, terms, amount, Down), ConvertToAssets(state, terms, amount, Up);
      down.Ok? && up.Ok? ==>
        && 0 <= up.value - down.value <= 1
        && var back := ConvertToShares(state, terms, down.value, Up); back.Ok? && back.value <= amount
  {
    if ValidEconomics(state, terms) && IsQuantity(amount) {
      var Price(x, y) := PriceOf(state, terms);
      RoundingsEnclose(amount, x, y);
      RoundingsEnclose(amount, y, x);
    }
  }

  /** The least fee on a net amount at a rate in basis points. */
  predicate ChargesNet(fee: int, net: int, bps: int) {
    (fee - 1) * 10_000 < net * bps <= fee * 10_000
  }

  /** The least fee inside a gross amount at a rate in basis points of the rest. */
  predicate ChargesGross(fee: int, gross: int, bps: int) {
    (fee - 1) * (10_000 + bps) < gross * bps <= fee * (10_000 + bps)
  }

  /**
   * What a quote is, apart from how it is computed: the user's amount is the side the operation fixes, the fee is the least
   * at the rate of the operation's own direction, and the rounding against the user is as small as it can be.
   */
  predicate IsQuote(q: Quote, backing: int, supply: int, terms: Terms) {
    var x, y := backing + 1, supply + terms.virtualShares;
    && q.grossAssets == q.netAssets + q.fee
    && match q.operation
       case Deposit =>
         q.grossAssets == q.amount && ChargesGross(q.fee, q.grossAssets, terms.entryBps)
         && q.shares * x <= q.netAssets * y < (q.shares + 1) * x
       case Mint =>
         q.shares == q.amount && ChargesNet(q.fee, q.netAssets, terms.entryBps)
         && (q.netAssets - 1) * y < q.shares * x <= q.netAssets * y
       case Withdraw =>
         q.netAssets == q.amount && ChargesNet(q.fee, q.netAssets, terms.exitBps)
         && (q.shares - 1) * x < q.grossAssets * y <= q.shares * x
       case Redeem =>
         q.shares == q.amount && ChargesGross(q.fee, q.grossAssets, terms.exitBps)
         && q.grossAssets * y <= q.shares * x < (q.grossAssets + 1) * y
  }

  /** A quotient by a positive divisor is the one integer between whose multiples the dividend lies. */
  lemma FloorIsExact(n: int, d: int, k: int)
    requires 0 <= n && 0 < d
    ensures k == n / d <==> k * d <= n < (k + 1) * d
  {
    FloorGalois(n, d, k);
    FloorGalois(n, d, k + 1);
  }

  lemma CeilIsExact(n: int, d: int, k: int)
    requires 0 <= n && 0 < d
    ensures k == CeilDiv(n, d) <==> (k - 1) * d < n <= k * d
  {
    CeilGalois(n, d, k);
    CeilGalois(n, d, k - 1);
  }

  lemma RawDepositIsExact(q: Quote, price: Price, terms: Terms)
    requires q.operation.Deposit? && 0 <= q.amount && 0 <= q.netAssets
    requires 0 < price.x && 0 < price.y && 0 <= terms.entryBps && 0 <= terms.exitBps
    ensures q == RawQuote(Deposit, q.amount, price, terms)
       <==> IsQuote(q, price.x - 1, price.y - terms.virtualShares, terms)
  {
    hide CeilDiv;
    CeilIsExact(q.amount * terms.entryBps, BPS + terms.entryBps, q.fee);
    FloorIsExact(q.netAssets * price.y, price.x, q.shares);
  }

  lemma RawMintIsExact(q: Quote, price: Price, terms: Terms)
    requires q.operation.Mint? && 0 <= q.shares && 0 <= q.netAssets
    requires 0 < price.x && 0 < price.y && 0 <= terms.entryBps && 0 <= terms.exitBps && 0 <= q.amount
    ensures q == RawQuote(Mint, q.amount, price, terms)
       <==> IsQuote(q, price.x - 1, price.y - terms.virtualShares, terms)
  {
    hide CeilDiv;
    CeilIsExact(q.shares * price.x, price.y, q.netAssets);
    CeilIsExact(q.netAssets * terms.entryBps, BPS, q.fee);
  }

  lemma RawWithdrawIsExact(q: Quote, price: Price, terms: Terms)
    requires q.operation.Withdraw? && 0 <= q.netAssets && 0 <= q.grossAssets
    requires 0 < price.x && 0 < price.y && 0 <= terms.entryBps && 0 <= terms.exitBps && 0 <= q.amount
    ensures q == RawQuote(Withdraw, q.amount, price, terms)
       <==> IsQuote(q, price.x - 1, price.y - terms.virtualShares, terms)
  {
    hide CeilDiv;
    CeilIsExact(q.netAssets * terms.exitBps, BPS, q.fee);
    CeilIsExact(q.grossAssets * price.y, price.x, q.shares);
  }

  lemma RawRedeemIsExact(q: Quote, price: Price, terms: Terms)
    requires q.operation.Redeem? && 0 <= q.shares && 0 <= q.grossAssets
    requires 0 < price.x && 0 < price.y && 0 <= terms.entryBps && 0 <= terms.exitBps && 0 <= q.amount
    ensures q == RawQuote(Redeem, q.amount, price, terms)
       <==> IsQuote(q, price.x - 1, price.y - terms.virtualShares, terms)
  {
    hide CeilDiv;
    FloorIsExact(q.shares * price.x, price.y, q.grossAssets);
    CeilIsExact(q.grossAssets * terms.exitBps, BPS + terms.exitBps, q.fee);
  }

  lemma RawQuoteIsExact(q: Quote, price: Price, terms: Terms)
    requires 0 <= q.amount && 0 <= q.grossAssets && 0 <= q.netAssets && 0 <= q.shares
    requires 0 < price.x && 0 < price.y && 0 <= terms.entryBps && 0 <= terms.exitBps
    ensures q == RawQuote(q.operation, q.amount, price, terms)
       <==> IsQuote(q, price.x - 1, price.y - terms.virtualShares, terms)
  {
    hide RawQuote, IsQuote;
    match q.operation
    case Deposit => RawDepositIsExact(q, price, terms);
    case Mint => RawMintIsExact(q, price, terms);
    case Withdraw => RawWithdrawIsExact(q, price, terms);
    case Redeem => RawRedeemIsExact(q, price, terms);
  }

  /** A preview is defined exactly when some quote of the operation and amount is in range, and it is that one quote. */
  lemma PreviewIsTheQuote(q: Quote, state: State, terms: Terms)
    ensures Preview(q.operation, q.amount, state, terms) == Ok(q)
       <==> && ValidEconomics(state, terms) && IsQuote(q, state.backingAssets, state.economicSupply, terms)
            && 0 <= q.amount <= 9_223_372_036_854_775_807 && 0 <= q.grossAssets <= 9_223_372_036_854_775_807
            && 0 <= q.netAssets <= 9_223_372_036_854_775_807 && 0 <= q.shares <= 9_223_372_036_854_775_807
            && 0 <= q.fee <= 9_223_372_036_854_775_807
  {
    hide RawQuote, IsQuote;
    if ValidEconomics(state, terms) && IsQuantity(q.amount) && QuoteInRange(q) {
      RawQuoteIsExact(q, PriceOf(state, terms), terms);
    }
  }

  /** The fee of every quote is charged at the rate of its own direction: entry for deposit and mint, exit for the others. */
  lemma FeeIsCharged(operation: Operation, amount: int, state: State, terms: Terms)
    requires Preview(operation, amount, state, terms).Ok?
    ensures
      var q := Preview(operation, amount, state, terms).value;
      match operation
      case Deposit => FeeTotal(q.grossAssets, terms.entryBps) == Ok(q.fee) && q.netAssets * terms.entryBps <= q.fee * 10_000
      case Mint => FeeRaw(q.netAssets, terms.entryBps) == Ok(q.fee)
      case Withdraw => FeeRaw(q.netAssets, terms.exitBps) == Ok(q.fee)
      case Redeem => FeeTotal(q.grossAssets, terms.exitBps) == Ok(q.fee) && q.netAssets * terms.exitBps <= q.fee * 10_000
  {
    hide RawQuote;
    var q := Preview(operation, amount, state, terms).value;
    PreviewIsTheQuote(q, state, terms);
    match operation
    case Deposit => GrossCharge(q, terms.entryBps);
    case Mint => NetCharge(q, terms.entryBps);
    case Withdraw => NetCharge(q, terms.exitBps);
    case Redeem => GrossCharge(q, terms.exitBps);
  }

  lemma NetOfCharge(gross: int, net: int, fee: int, bps: int)
    requires gross == net + fee && gross * bps <= fee * (10_000 + bps)
    ensures net * bps <= fee * 10_000
  {
    assert gross * bps == net * bps + fee * bps;
    assert fee * (10_000 + bps) == fee * 10_000 + fee * bps;
  }

  lemma GrossCharge(q: Quote, bps: int)
    requires 0 <= bps <= 9999 && IsQuantity(q.grossAssets) && q.grossAssets == q.netAssets + q.fee
    requires ChargesGross(q.fee, q.grossAssets, bps)
    ensures FeeTotal(q.grossAssets, bps) == Ok(q.fee) && q.netAssets * bps <= q.fee * 10_000
  {
    hide CeilDiv;
    NetOfCharge(q.grossAssets, q.netAssets, q.fee, bps);
    var n, d := q.grossAssets * bps, 10_000 + bps;
    assert FeeTotal(q.grossAssets, bps).Ok?;
    CeilIsExact(n, d, q.fee);
  }

  lemma NetCharge(q: Quote, bps: int)
    requires 0 <= bps <= 9999 && IsQuantity(q.netAssets) && ChargesNet(q.fee, q.netAssets, bps)
    ensures FeeRaw(q.netAssets, bps) == Ok(q.fee)
  {
    hide CeilDiv;
    CeilIsExact(q.netAssets * bps, BPS, q.fee);
  }

  /** Valid economics, spelled out: every amount a positive or nonnegative 63-bit quantity, rates below 10000, 1 to 15 modes. */
  lemma ValidEconomicsMeans(state: State, terms: Terms)
    ensures ValidEconomics(state, terms) <==>
      && 0 <= state.backingAssets && 0 <= state.economicSupply <= 9_223_372_036_854_775_807 && 0 <= state.accruedFees
      && 1 <= state.storageLovelace <= 9_223_372_036_854_775_807 && 0 <= state.sequence <= 9_223_372_036_854_775_807
      && state.pauseFlags in {0, 1, 2, 3} && terms.profile == 0 && 1 <= terms.virtualShares <= 9_223_372_036_854_775_807
      && 0 <= terms.entryBps < 10_000 && 0 <= terms.exitBps < 10_000 && 1 <= terms.executionModes < 16
      && (terms.maxBacking.Some? ==> state.backingAssets <= terms.maxBacking.value <= 9_223_372_036_854_775_807)
      && state.backingAssets + state.accruedFees <= 9_223_372_036_854_775_807
      && (terms.underlying == Ada ==>
            state.backingAssets + state.accruedFees + state.storageLovelace <= 9_223_372_036_854_775_807)
  {
  }
}
