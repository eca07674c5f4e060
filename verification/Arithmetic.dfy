/** Exact base-unit arithmetic: the quantity bound, ceiling division and the two fee denominators. */
module Arithmetic {
  import opened Results

  const Q_MAX: int := 0x7FFF_FFFF_FFFF_FFFF
  const BPS: int := 10_000

  predicate IsQuantity(n: int) {
    0 <= n <= Q_MAX
  }

  predicate IsPositive(n: int) {
    1 <= n <= Q_MAX
  }

  function Integer(n: int, min: int, max: int): (r: Result<int>)
    ensures r.Ok? <==> min <= n <= max
    ensures r.Ok? ==> r.value == n
  {
    if n < min || n > max then Err(OutOfRange) else Ok(n)
  }

  function Quantity(n: int): Result<int> {
    Integer(n, 0, Q_MAX)
  }

  function Positive(n: int): Result<int> {
    Integer(n, 1, Q_MAX)
  }

  /** The least integer k with n <= k * d. */
  function CeilDiv(n: int, d: int): (k: int)
    requires 0 <= n && 0 < d
    ensures n <= k * d && (k - 1) * d < n
    ensures 0 <= k
  {
    (n + d - 1) / d
  }

  /** The least fee that covers its basis points of a net amount; it is added to reach the gross amount. */
  function FeeRaw(amount: int, bps: int): (fee: Result<int>)
    ensures fee.Ok? <==> IsQuantity(amount) && 0 <= bps <= 9999
    ensures fee.Ok? ==> amount * bps <= fee.value * BPS && (fee.value - 1) * BPS < amount * bps
  {
    var _ :- Quantity(amount);
    var _ :- Integer(bps, 0, 9999);
    Ok(CeilDiv(amount * bps, BPS))
  }

  /** The least fee contained in a gross amount at its basis points of the rest; it is subtracted to reach the net amount. */
  function FeeTotal(amount: int, bps: int): (fee: Result<int>)
    ensures fee.Ok? <==> IsQuantity(amount) && 0 <= bps <= 9999
    ensures fee.Ok? ==> amount * bps <= fee.value * (BPS + bps) && (fee.value - 1) * (BPS + bps) < amount * bps
  {
    var _ :- Quantity(amount);
    var _ :- Integer(bps, 0, 9999);
    Ok(CeilDiv(amount * bps, BPS + bps))
  }

  /** Multiplying by a positive number keeps the order and reflects it. */
  lemma MulOrder(a: int, b: int, d: int)
    requires 0 < d
    ensures a <= b <==> a * d <= b * d
  {
    if a <= b {
      assert 0 <= (b - a) * d;
    } else {
      assert 0 < (a - b) * d;
    }
  }

  /** Ceiling division is the lower adjoint of multiplication. */
  lemma CeilGalois(n: int, d: int, k: int)
    requires 0 <= n && 0 < d
    ensures CeilDiv(n, d) <= k <==> n <= k * d
  {
    var c := CeilDiv(n, d);
    if c <= k {
      MulOrder(c, k, d);
    } else {
      MulOrder(k, c - 1, d);
    }
  }

  /** Floor division is the upper adjoint of multiplication. */
  lemma FloorGalois(n: int, d: int, k: int)
    requires 0 < d
    ensures k <= n / d <==> k * d <= n
  {
    var q := n / d;
    assert n == q * d + n % d;
    if k <= q {
      MulOrder(k, q, d);
    } else {
      MulOrder(q + 1, k, d);
    }
  }

  /** The gross fee and the net fee undo each other across the boundary between net and gross amounts. */
  lemma FeeAdjoint(gross: int, net: int, bps: int)
    requires 0 <= gross && 0 <= net && 0 <= bps
    ensures gross - CeilDiv(gross * bps, BPS + bps) >= net <==> gross >= net + CeilDiv(net * bps, BPS)
  {
    CeilGalois(gross * bps, BPS + bps, gross - net);
    CeilGalois(net * bps, BPS, gross - net);
    assert (gross - net) * (BPS + bps) == gross * BPS - net * BPS + gross * bps - net * bps;
    assert (gross - net) * BPS == gross * BPS - net * BPS;
  }

  lemma CeilMonotone(m: int, n: int, d: int)
    requires 0 <= m <= n && 0 < d
    ensures CeilDiv(m, d) <= CeilDiv(n, d)
  {
    CeilGalois(m, d, CeilDiv(n, d));
  }

  lemma FloorMonotone(m: int, n: int, d: int)
    requires m <= n && 0 < d
    ensures m / d <= n / d
  {
    FloorGalois(n, d, m / d);
    FloorGalois(m, d, m / d);
  }

  /** What a gross amount leaves after its fee: nonnegative, at most the amount, and monotone. */
  lemma NetOfGross(gross: int, more: int, bps: int)
    requires 0 <= gross <= more && 0 <= bps
    ensures 0 <= gross - CeilDiv(gross * bps, BPS + bps) <= gross
    ensures gross - CeilDiv(gross * bps, BPS + bps) <= more - CeilDiv(more * bps, BPS + bps)
    ensures CeilDiv(gross * bps, BPS + bps) <= CeilDiv(more * bps, BPS + bps)
  {
    var net := gross - CeilDiv(gross * bps, BPS + bps);
    assert gross * bps <= gross * (BPS + bps);
    CeilGalois(gross * bps, BPS + bps, gross);
    FeeAdjoint(gross, net, bps);
    FeeAdjoint(more, net, bps);
    MulOrder(gross, more, bps + 1);
    MulMonotone(gross, more, bps);
    CeilMonotone(gross * bps, more * bps, BPS + bps);
  }

  lemma MulMonotone(a: int, b: int, d: int)
    requires a <= b && 0 <= d
    ensures a * d <= b * d
  {
    assert 0 <= (b - a) * d;
  }

  /** Scaling by a ratio keeps the order under floor and under ceiling division. */
  lemma ScaleMonotone(less: int, more: int, num: int, den: int)
    requires 0 <= less <= more && 0 <= num && 0 < den
    ensures 0 <= less * num && 0 <= more * num
    ensures (less * num) / den <= (more * num) / den
    ensures CeilDiv(less * num, den) <= CeilDiv(more * num, den)
  {
    MulMonotone(0, less, num);
    MulMonotone(less, more, num);
    FloorMonotone(less * num, more * num, den);
    CeilMonotone(less * num, more * num, den);
  }

  /** Ratios compare by cross multiplication, and that comparison is transitive. */
  lemma RatioTransitive(x0: int, y0: int, x1: int, y1: int, x2: int, y2: int)
    requires 0 < y0 && 0 < y1 && 0 < y2
    requires x0 * y1 <= x1 * y0 && x1 * y2 <= x2 * y1
    ensures x0 * y2 <= x2 * y0
  {
    calc {
      (x0 * y2) * y1;
      (x0 * y1) * y2;
    <= { MulMonotone(x0 * y1, x1 * y0, y2); }
      (x1 * y0) * y2;
      (x1 * y2) * y0;
    <= { MulMonotone(x1 * y2, x2 * y1, y0); }
      (x2 * y1) * y0;
      (x2 * y0) * y1;
    }
    MulOrder(x0 * y2, x2 * y0, y1);
  }
}
