/** One economic step: enabled direction, positive quote, user bound and successor State. */
module Transitions {
  import opened Results
  import opened Types
  import opened Arithmetic
  import opened Quotes

  datatype TransitionResult = TransitionResult(quote: Quote, successor: State, shareMint: int)

  /** Whether the bit of weight w is set in a nonnegative mask. */
  predicate Bit(mask: int, w: int)
    requires 0 < w
  {
    (mask / w) % 2 == 1
  }

  function Mode(entry: bool, asynchronous: bool): (m: int)
    ensures 0 < m
  {
    if asynchronous then (if entry then 4 else 8) else if entry then 1 else 2
  }

  /** Capability bits select the path; pause bits independently restrict its direction. */
  function AssertEnabled(state: State, terms: Terms, entry: bool, asynchronous: bool): Outcome {
    if !Bit(terms.executionModes, Mode(entry, asynchronous)) then Fail(UnsupportedMode)
    else if Bit(state.pauseFlags, if entry then 1 else 2) then Fail(Paused)
    else Pass
  }

  /** Deposit and redeem bound what is received; mint and withdraw bound what is given. */
  predicate WithinBound(quote: Quote, bound: int) {
    match quote.operation
    case Deposit => quote.shares >= bound
    case Mint => quote.grossAssets <= bound
    case Withdraw => quote.shares <= bound
    case Redeem => quote.netAssets >= bound
  }

  function Successor(quote: Quote, state: State): State {
    var entry := quote.operation.IsEntry();
    state.(
      sequence := state.sequence + 1,
      backingAssets := state.backingAssets + (if entry then quote.netAssets else -quote.grossAssets),
      economicSupply := state.economicSupply + (if entry then quote.shares else -quote.shares),
      accruedFees := state.accruedFees + quote.fee)
  }

  function ShareMint(quote: Quote): int {
    if quote.operation.IsEntry() then quote.shares else -quote.shares
  }

  function Transition(operation: Operation, amount: int, bound: int, state: State, terms: Terms, asynchronous: bool)
    : (r: Result<TransitionResult>)
    ensures r.Ok? ==>
      var TransitionResult(quote, successor, shareMint) := r.value;
      && Preview(operation, amount, state, terms) == Ok(quote)
      && ValidEconomics(state, terms) && ValidEconomics(successor, terms)
      && successor == Successor(quote, state) && shareMint == ShareMint(quote)
      && 0 < quote.grossAssets && 0 < quote.netAssets && 0 < quote.shares
      && WithinBound(quote, bound)
  {
    var entry := operation.IsEntry();
    :- Need(asynchronous ==> operation.Deposit? || operation.Redeem?, UnsupportedOperation);
    var _ :- Positive(amount);
    var _ :- Positive(bound);
    var quote :- Preview(operation, amount, state, terms);
    :- AssertEnabled(state, terms, entry, asynchronous);
    var _ :- Positive(quote.grossAssets);
    var _ :- Positive(quote.netAssets);
    var _ :- Positive(quote.shares);
    var _ :- Quantity(quote.fee);
    :- Need(WithinBound(quote, bound), BoundViolated);
    var successor := Successor(quote, state);
    var _ :- ValidateEconomics(successor, terms);
    Ok(TransitionResult(quote, successor, ShareMint(quote)))
  }

  /** The share price of `after` is at least that of `before`, by cross multiplication. */
  predicate PriceNotBelow(before: State, after: State, terms: Terms) {
    PriceOf(before, terms).x * PriceOf(after, terms).y <= PriceOf(after, terms).x * PriceOf(before, terms).y
  }

  /** Assets entering and shares issued on the vault's side of the price cannot lower it. */
  lemma EntryKeepsRatio(x: int, y: int, assets: int, shares: int)
    requires shares * x <= assets * y
    ensures x * (y + shares) <= (x + assets) * y
  {
  }

  /** Nor can assets leaving against at least as many shares. */
  lemma ExitKeepsRatio(x: int, y: int, assets: int, shares: int)
    requires assets * y <= shares * x
    ensures x * (y - shares) <= (x - assets) * y
  {
  }

  /** Every operation, rounded as it is, leaves the virtual share price at least where it was. */
  lemma TransitionKeepsPrice(operation: Operation, amount: int, bound: int, state: State, terms: Terms, asynchronous: bool)
    requires Transition(operation, amount, bound, state, terms, asynchronous).Ok?
    ensures PriceNotBelow(state, Transition(operation, amount, bound, state, terms, asynchronous).value.successor, terms)
  {
    var TransitionResult(quote, successor, mint) :=
      Transition(operation, amount, bound, state, terms, asynchronous).value;
    var Price(x, y) := PriceOf(state, terms);
    QuoteFavoursVault(operation, amount, state, terms);
    if operation.IsEntry() {
      EntryKeepsRatio(x, y, quote.netAssets, quote.shares);
      assert PriceOf(successor, terms) == Price(x + quote.netAssets, y + quote.shares);
    } else {
      ExitKeepsRatio(x, y, quote.grossAssets, quote.shares);
      assert PriceOf(successor, terms) == Price(x - quote.grossAssets, y - quote.shares);
    }
  }

  /** The State's custody grows by exactly what the user brings, and shrinks by exactly what the user is paid. */
  lemma TransitionConservesCustody(operation: Operation, amount: int, bound: int, state: State, terms: Terms, asynchronous: bool)
    requires Transition(operation, amount, bound, state, terms, asynchronous).Ok?
    ensures
      var TransitionResult(quote, successor, _) := Transition(operation, amount, bound, state, terms, asynchronous).value;
      Custody(successor, terms) - Custody(state, terms)
        == (if operation.IsEntry() then quote.grossAssets else -quote.netAssets)
  {
    QuoteFavoursVault(operation, amount, state, terms);
  }

  /** A price that did not fall bounds the supply by the backing, and so forbids extraction at equal supply. */
  lemma PriceBoundsSupply(before: State, after: State, terms: Terms)
    requires ValidEconomics(before, terms) && ValidEconomics(after, terms)
    requires PriceNotBelow(before, after, terms)
    ensures before.economicSupply <= after.economicSupply ==> before.backingAssets <= after.backingAssets
    ensures before.economicSupply <= terms.virtualShares * before.backingAssets ==>
      after.economicSupply <= terms.virtualShares * after.backingAssets
  {
    var Price(x0, y0) := PriceOf(before, terms);
    var Price(x1, y1) := PriceOf(after, terms);
    if y0 <= y1 {
      MulMonotone(y0, y1, x0);
      MulOrder(x0, x1, y0);
    }
    if y0 <= terms.virtualShares * x0 {
      RatioTransitive(1, terms.virtualShares, x0, y0, x1, y1);
    }
  }

  /** The execution modes that advertise a path: 1 and 2 are the immediate bits, 4 and 8 the asynchronous ones, entry first. */
  predicate Advertises(modes: int, entry: bool, asynchronous: bool) {
    match (entry, asynchronous)
    case (true, false) => modes in {1, 3, 5, 7, 9, 11, 13, 15}
    case (false, false) => modes in {2, 3, 6, 7, 10, 11, 14, 15}
    case (true, true) => modes in {4, 5, 6, 7, 12, 13, 14, 15}
    case (false, true) => modes in {8, 9, 10, 11, 12, 13, 14, 15}
  }

  /** The pause flags under which a direction runs: 1 pauses entries, 2 pauses exits, 3 both. */
  predicate Runs(flags: int, entry: bool) {
    if entry then flags in {0, 2} else flags in {0, 1}
  }

  lemma EnabledMeans(state: State, terms: Terms, entry: bool, asynchronous: bool)
    requires 1 <= terms.executionModes <= 15 && 0 <= state.pauseFlags <= 3
    ensures AssertEnabled(state, terms, entry, asynchronous).Pass?
       <==> Advertises(terms.executionModes, entry, asynchronous) && Runs(state.pauseFlags, entry)
    ensures AssertEnabled(state, terms, entry, asynchronous) == Fail(Paused)
       <==> Advertises(terms.executionModes, entry, asynchronous) && !Runs(state.pauseFlags, entry)
  {
  }

  /** The successor of an executed operation, asset by asset and share by share; everything else of the State stays. */
  predicate Executes(before: State, q: Quote, after: State) {
    && after.sequence == before.sequence + 1 && after.accruedFees == before.accruedFees + q.fee
    && (q.operation.Deposit? || q.operation.Mint? ==>
          && after.backingAssets == before.backingAssets + q.netAssets
          && after.economicSupply == before.economicSupply + q.shares)
    && (q.operation.Withdraw? || q.operation.Redeem? ==>
          && after.backingAssets == before.backingAssets - q.grossAssets
          && after.economicSupply == before.economicSupply - q.shares)
    && after == before.(
         sequence := after.sequence, backingAssets := after.backingAssets, economicSupply := after.economicSupply,
         accruedFees := after.accruedFees)
  }

  /** What the user fixed is what the operation takes or gives; the other side is no worse than the bound. */
  predicate Bounded(q: Quote, bound: int) {
    match q.operation
    case Deposit => bound <= q.shares
    case Mint => q.grossAssets <= bound
    case Withdraw => q.shares <= bound
    case Redeem => bound <= q.netAssets
  }

  /**
   * An operation executes exactly when it is a deposit or redemption if asynchronous, its path is advertised and its
   * direction runs, amount and bound are positive quantities, its quote exists, pays something and respects the bound, and
   * its successor is valid; and then the successor and the mint are those of the quote.
   */
  lemma TransitionMeans(operation: Operation, amount: int, bound: int, state: State, terms: Terms, asynchronous: bool, q: Quote, after: State)
    requires Preview(operation, amount, state, terms) == Ok(q) && Executes(state, q, after)
    ensures Transition(operation, amount, bound, state, terms, asynchronous).Ok? <==>
      && (asynchronous ==> operation == Deposit || operation == Redeem)
      && Advertises(terms.executionModes, operation == Deposit || operation == Mint, asynchronous)
      && Runs(state.pauseFlags, operation == Deposit || operation == Mint)
      && 1 <= amount && 1 <= bound <= 9_223_372_036_854_775_807
      && 1 <= q.shares && 1 <= q.netAssets && 1 <= q.grossAssets && Bounded(q, bound) && ValidEconomics(after, terms)
    ensures Transition(operation, amount, bound, state, terms, asynchronous).Ok? ==>
      Transition(operation, amount, bound, state, terms, asynchronous)
      == Ok(TransitionResult(q, after, if operation == Deposit || operation == Mint then q.shares else -q.shares))
  {
    hide Preview, AssertEnabled, ValidEconomics;
    ValidEconomicsMeans(state, terms);
    EnabledMeans(state, terms, operation.IsEntry(), asynchronous);
    PreviewIsTheQuote(q, state, terms);
  }

  /** Without a quote nothing executes. */
  lemma TransitionNeedsQuote(operation: Operation, amount: int, bound: int, state: State, terms: Terms, asynchronous: bool)
    requires Preview(operation, amount, state, terms).Err?
    ensures Transition(operation, amount, bound, state, terms, asynchronous).Err?
  {
    hide Preview;
  }

  /**
   * Pausing stops exactly its own direction: with any flags an operation executes if and only if its direction runs and it
   * would execute unpaused, with the same quote, mint and accounting.
   */
  lemma PauseStopsOneDirection(
    operation: Operation, amount: int, bound: int, state: State, flags: int, terms: Terms, asynchronous: bool)
    requires 0 <= flags <= 3
    ensures
      var entry := operation == Deposit || operation == Mint;
      var paused := Transition(operation, amount, bound, state.(pauseFlags := flags), terms, asynchronous);
      var unpaused := Transition(operation, amount, bound, state.(pauseFlags := 0), terms, asynchronous);
      && (paused.Ok? <==> unpaused.Ok? && Runs(flags, entry))
      && (paused.Ok? ==>
            && paused.value.quote == unpaused.value.quote && paused.value.shareMint == unpaused.value.shareMint
            && paused.value.successor == unpaused.value.successor.(pauseFlags := flags))
  {
    var entry := operation == Deposit || operation == Mint;
    var now, free := state.(pauseFlags := flags), state.(pauseFlags := 0);
    assert Preview(operation, amount, now, terms) == Preview(operation, amount, free, terms);
    hide Preview, AssertEnabled, RawQuote;
    if Preview(operation, amount, free, terms).Ok? {
      var q := Preview(operation, amount, free, terms).value;
      var after := Successor(q, free);
      TransitionMeans(operation, amount, bound, now, terms, asynchronous, q, after.(pauseFlags := flags));
      TransitionMeans(operation, amount, bound, free, terms, asynchronous, q, after);
    }
  }
}
