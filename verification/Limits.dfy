/** The largest gross deposit that the snapshot's economics admit. */
module Limits {
  import opened Results
  import opened Types
  import opened Arithmetic
  import opened Quotes
  import opened Transitions

  datatype DepositLimit = Known(value: int) | SequenceExhausted | Unavailable(reason: Error)

  function Cap(terms: Terms): int {
    if terms.maxBacking.Some? then terms.maxBacking.value else Q_MAX
  }

  /** The capacity predicate of the search: every successor partition that a deposit raises stays in range. */
  predicate UpperCapacity(d: int, state: State, terms: Terms)
    requires 0 <= d && ValidEconomics(state, terms)
  {
    var quote := RawQuote(Deposit, d, PriceOf(state, terms), terms);
    && state.backingAssets + quote.netAssets <= Cap(terms)
    && state.economicSupply + quote.shares <= Q_MAX
    && state.accruedFees + quote.fee <= Q_MAX
    && Custody(state, terms) + d <= Q_MAX
  }

  function SharesFor(d: int, state: State, terms: Terms): int
    requires 0 <= d && ValidEconomics(state, terms)
  {
    RawQuote(Deposit, d, PriceOf(state, terms), terms).shares
  }

  lemma CapacityIsPrefix(less: int, more: int, state: State, terms: Terms)
    requires 0 <= less <= more && ValidEconomics(state, terms) && UpperCapacity(more, state, terms)
    ensures UpperCapacity(less, state, terms)
    ensures SharesFor(less, state, terms) <= SharesFor(more, state, terms)
  {
    DepositMonotone(less, more, PriceOf(state, terms), terms);
  }

  /** A deposit executes exactly when it fits the capacity, issues at least its bound, and has a sequence number left. */
  lemma DepositExecutes(d: int, bound: int, state: State, terms: Terms, asynchronous: bool)
    requires ValidEconomics(state, terms) && AssertEnabled(state, terms, true, asynchronous).Pass?
    ensures Transition(Deposit, d, bound, state, terms, asynchronous).Ok? <==>
      && IsPositive(d) && IsPositive(bound) && state.sequence < Q_MAX
      && UpperCapacity(d, state, terms) && bound <= SharesFor(d, state, terms)
  {
    if IsPositive(d) {
      var Price(x, y) := PriceOf(state, terms);
      var quote := RawQuote(Deposit, d, PriceOf(state, terms), terms);
      NetOfGross(d, d, terms.entryBps);
      FloorGalois(quote.netAssets * y, x, 0);
      FloorGalois(quote.netAssets * y, x, 1);
      if quote.netAssets == 0 {
        assert quote.netAssets * y == 0;
      }
    }
  }

  /** The executable amounts are the interval between the first amount that issues a share and the capacity. */
  lemma ExecutableDepositsAreAnInterval(low: int, mid: int, high: int, state: State, terms: Terms, asynchronous: bool)
    requires low <= mid <= high
    requires Transition(Deposit, low, 1, state, terms, asynchronous).Ok?
    requires Transition(Deposit, high, 1, state, terms, asynchronous).Ok?
    ensures Transition(Deposit, mid, 1, state, terms, asynchronous).Ok?
  {
    DepositExecutes(low, 1, state, terms, asynchronous);
    DepositExecutes(mid, 1, state, terms, asynchronous);
    DepositExecutes(high, 1, state, terms, asynchronous);
    CapacityIsPrefix(mid, high, state, terms);
    CapacityIsPrefix(low, mid, state, terms);
  }

  /** Below an executable deposit every positive amount executes exactly when an amount of 1 already issues a share. */
  lemma ExecutableDepositsAreAPrefix(high: int, state: State, terms: Terms, asynchronous: bool)
    requires Transition(Deposit, high, 1, state, terms, asynchronous).Ok?
    ensures (forall d :: 1 <= d <= high ==> Transition(Deposit, d, 1, state, terms, asynchronous).Ok?)
       <==> 1 <= SharesFor(1, state, terms)
  {
    hide UpperCapacity, SharesFor, Transition, ValidEconomics, AssertEnabled;
    ExecutedIsEnabled(high, state, terms, asynchronous);
    DepositExecutes(high, 1, state, terms, asynchronous);
    DepositExecutes(1, 1, state, terms, asynchronous);
    CapacityIsPrefix(1, high, state, terms);
    if 1 <= SharesFor(1, state, terms) {
      forall d | 1 <= d <= high ensures Transition(Deposit, d, 1, state, terms, asynchronous).Ok? {
        ExecutableDepositsAreAnInterval(1, d, high, state, terms, asynchronous);
      }
    }
  }

  lemma ExecutedIsEnabled(d: int, state: State, terms: Terms, asynchronous: bool)
    requires Transition(Deposit, d, 1, state, terms, asynchronous).Ok?
    ensures ValidEconomics(state, terms) && AssertEnabled(state, terms, true, asynchronous).Pass?
  {
    hide RawQuote, ValidEconomics, AssertEnabled;
  }

  /** The empty State of an ADA vault, and Terms that take one basis point on entry. */
  const EMPTY_STATE := State("", "", 0, 0, 0, 0, 1, 0)
  const ONE_POINT_TERMS :=
    Terms(0, "", Ada, 1, None, 1, 0, Destination(Address(Credential(Key, ""), None), None), None, None, 1, 1, None)

  /** A witness that the amounts are not a prefix: the fee takes the whole of a deposit of 1, and a deposit of 2 executes. */
  lemma SmallestDepositFails()
    ensures Transition(Deposit, 1, 1, EMPTY_STATE, ONE_POINT_TERMS, false).Err?
    ensures Transition(Deposit, 2, 1, EMPTY_STATE, ONE_POINT_TERMS, false).Ok?
    ensures SharesFor(1, EMPTY_STATE, ONE_POINT_TERMS) == 0
  {
    DepositExecutes(1, 1, EMPTY_STATE, ONE_POINT_TERMS, false);
    DepositExecutes(2, 1, EMPTY_STATE, ONE_POINT_TERMS, false);
    assert RawQuote(Deposit, 1, PriceOf(EMPTY_STATE, ONE_POINT_TERMS), ONE_POINT_TERMS) == Quote(Deposit, 1, 1, 0, 0, 1);
    assert RawQuote(Deposit, 2, PriceOf(EMPTY_STATE, ONE_POINT_TERMS), ONE_POINT_TERMS) == Quote(Deposit, 2, 2, 1, 1, 1);
  }

  /** At the largest amount within capacity the quote exists, and it decides whether any deposit executes. */
  lemma MaximumIsExact(v: int, state: State, terms: Terms, asynchronous: bool)
    requires ValidEconomics(state, terms) && AssertEnabled(state, terms, true, asynchronous).Pass?
    requires state.sequence < Q_MAX && 0 <= v <= Q_MAX && UpperCapacity(v, state, terms)
    requires forall d :: v < d <= Q_MAX ==> !UpperCapacity(d, state, terms)
    ensures Preview(Deposit, v, state, terms).Ok?
    ensures Preview(Deposit, v, state, terms).value.shares == SharesFor(v, state, terms)
    ensures 0 < SharesFor(v, state, terms) ==> 0 < v && Transition(Deposit, v, 1, state, terms, asynchronous).Ok?
    ensures forall d, bound :: Transition(Deposit, d, bound, state, terms, asynchronous).Ok? ==>
      d <= v && 0 < SharesFor(v, state, terms)
  {
    DepositMonotone(v, v, PriceOf(state, terms), terms);
    DepositExecutes(v, 1, state, terms, asynchronous);
    if v == 0 {
      DepositOfNothing(PriceOf(state, terms), terms);
    }
    forall d, bound | Transition(Deposit, d, bound, state, terms, asynchronous).Ok?
      ensures d <= v && 0 < SharesFor(v, state, terms)
    {
      DepositExecutes(d, bound, state, terms, asynchronous);
      CapacityIsPrefix(d, v, state, terms);
    }
  }

  lemma DepositOfNothing(price: Price, terms: Terms)
    requires 0 < price.x && 0 < price.y && 0 <= terms.entryBps && 0 <= terms.exitBps
    ensures RawQuote(Deposit, 0, price, terms) == Quote(Deposit, 0, 0, 0, 0, 0)
  {
    NetOfGross(0, 0, terms.entryBps);
  }

  lemma DisabledEntryNeverExecutes(d: int, bound: int, state: State, terms: Terms, asynchronous: bool)
    requires AssertEnabled(state, terms, true, asynchronous).Fail?
    ensures Transition(Deposit, d, bound, state, terms, asynchronous).Err?
  {
    hide RawQuote, ValidEconomics, AssertEnabled;
  }

  /** Binary search for the last amount within capacity. */
  method SearchCapacity(state: State, terms: Terms) returns (last: int)
    requires ValidEconomics(state, terms)
    ensures 0 <= last <= Q_MAX && UpperCapacity(last, state, terms)
    ensures forall d :: last < d <= Q_MAX ==> !UpperCapacity(d, state, terms)
  {
    DepositOfNothing(PriceOf(state, terms), terms);
    var lo, hi := 0, Q_MAX;
    while lo < hi
      invariant 0 <= lo <= hi <= Q_MAX
      invariant UpperCapacity(lo, state, terms)
      invariant forall d :: hi < d <= Q_MAX ==> !UpperCapacity(d, state, terms)
    {
      var mid := (lo + hi + 1) / 2;
      if UpperCapacity(mid, state, terms) {
        lo := mid;
      } else {
        forall d | mid <= d <= Q_MAX ensures !UpperCapacity(d, state, terms) {
          if UpperCapacity(d, state, terms) {
            CapacityIsPrefix(mid, d, state, terms);
          }
        }
        hi := mid - 1;
      }
    }
    return lo;
  }

  /**
   * The reported maximum is exact: v itself executes with bound 1 when v is positive, and nothing above it
   * executes at any bound. An unavailable or exhausted limit means that no deposit executes at all.
   */
  method MaxDeposit(state: State, terms: Terms, asynchronous: bool) returns (limit: Result<DepositLimit>)
    ensures limit.Ok? <==> ValidEconomics(state, terms)
    ensures limit.Ok? && limit.value.Unavailable? <==>
      ValidEconomics(state, terms) && AssertEnabled(state, terms, true, asynchronous).Fail?
    ensures limit.Ok? && limit.value.Known? ==> 0 <= limit.value.value <= Q_MAX
    ensures limit.Ok? && limit.value.Known? && limit.value.value > 0 ==>
      Transition(Deposit, limit.value.value, 1, state, terms, asynchronous).Ok?
    ensures limit.Ok? && limit.value.Known? ==>
      forall d, bound :: d > limit.value.value ==> Transition(Deposit, d, bound, state, terms, asynchronous).Err?
    ensures limit.Ok? && !limit.value.Known? ==>
      forall d, bound :: Transition(Deposit, d, bound, state, terms, asynchronous).Err?
  {
    hide Transition, UpperCapacity, SharesFor, RawQuote, AssertEnabled;
    var price := ValidateEconomics(state, terms);
    if price.Err? {
      return Err(price.error);
    }
    var enabled := AssertEnabled(state, terms, true, asynchronous);
    if enabled.Fail? {
      forall d, bound ensures Transition(Deposit, d, bound, state, terms, asynchronous).Err? {
        DisabledEntryNeverExecutes(d, bound, state, terms, asynchronous);
      }
      return Ok(Unavailable(enabled.error));
    }
    if state.sequence == Q_MAX {
      forall d, bound ensures Transition(Deposit, d, bound, state, terms, asynchronous).Err? {
        DepositExecutes(d, bound, state, terms, asynchronous);
      }
      return Ok(SequenceExhausted);
    }
    var lo := SearchCapacity(state, terms);
    MaximumIsExact(lo, state, terms, asynchronous);
    var quote := Preview(Deposit, lo, state, terms);
    return Ok(Known(if quote.value.shares == 0 then 0 else lo));
  }
}
