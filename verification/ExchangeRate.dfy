/** The exchange rate between the staking coin and the token, and what keeps it backed. */
module ExchangeRate {
  import opened Fixed
  import opened HubTypes

  /** The recomputed rate: bonded coins per token, where tokens still owed to the current
      unbonding batch count as issued. */
  function UpdatedRate(bond: nat, issued: nat, requested: nat): Result<nat> {
    var supply :- Add(issued, requested);
    if bond == 0 || supply == 0 then Ok(ONE) else Ratio(bond, supply)
  }

  /** The stored rate does not overstate the backing of `supply` tokens by `bond` coins. */
  predicate Backed(rate: nat, supply: nat, bond: nat) {
    rate * supply <= bond * ONE
  }

  /** A recomputed rate is backed exactly when it is not the 1.0 of an empty bond with
      tokens outstanding. */
  lemma UpdatedRateBackedIff(bond: nat, issued: nat, requested: nat)
    requires UpdatedRate(bond, issued, requested).Ok?
    ensures Backed(UpdatedRate(bond, issued, requested).value, issued + requested, bond)
       <==> bond > 0 || issued + requested == 0
  {
  }

  /** The recomputed rate is the largest backed rate. */
  lemma UpdatedRateIsLargest(bond: nat, issued: nat, requested: nat, rate: nat)
    requires UpdatedRate(bond, issued, requested).Ok?
    requires bond > 0 && issued + requested > 0
    ensures Backed(rate, issued + requested, bond)
       <==> rate <= UpdatedRate(bond, issued, requested).value
  {
    FloorIsLargest(bond * ONE, issued + requested, rate);
  }

  /** Comparing the recorded bond with the actual delegations; only ever lowers the bond,
      and does nothing when the hub has no delegation at all. */
  function SlashingStep(s: Storage, c: Chain): Result<Storage> {
    if |c.delegations| == 0 then Ok(s)
    else
      var actual :- Fit(TotalDelegated(c.delegations));
      if s.totalBond > actual then
        var rate :- UpdatedRate(actual, c.supply, s.requested);
        Ok(s.(totalBond := actual, exchangeRate := rate))
      else Ok(s)
  }

  /** 10^9, the granularity of a token division. */
  const GRAIN: nat := 1_000_000_000

  /** `a / b` in two steps, through a divisor truncated to nine decimal places. */
  function DecimalDivision(a: nat, b: nat): Result<nat> {
    var divisor :- Times(GRAIN, b);
    var quotient :- Ratio(a, divisor);
    Times(GRAIN, quotient)
  }

  /** Both numbers a division computes on the way -- the divisor in whole multiples of 10^-9,
      and the quotient by it as a decimal -- fit, and the divisor is at least 10^-9. */
  predicate Divides(a: nat, b: nat) {
    && b >= GRAIN
    && Floor(b, GRAIN) < LIMIT
    && Floor(a * ONE, Floor(b, GRAIN)) < LIMIT
  }

  /** The two floors of a division are one: with `q` the divisor's whole multiples of
      10^-9, the result is `floor(a * 10^9 / q)`.  It aborts exactly when the divisor is
      below 10^-9 or a number on the way does not fit; the last step always fits. */
  lemma DecimalDivisionIs(a: nat, b: nat)
    ensures DecimalDivision(a, b).Ok? <==> Divides(a, b)
    ensures Divides(a, b) ==>
              DecimalDivision(a, b).value == Floor(a * GRAIN, Floor(b, GRAIN))
  {
    var scaled := Floor(GRAIN * b, ONE);
    FloorUnique(b, GRAIN, scaled);
    if b >= GRAIN {
      var q := Floor(b, GRAIN);
      FloorIsLargest(b, GRAIN, 1);
      FloorFloor(a * ONE, q, GRAIN);
      var ratio := Floor(a * ONE, q);
      FloorUnique(ratio, GRAIN, Floor(GRAIN * ratio, ONE));
      FloorCancel(a, q);
    }
  }

  /** A common factor 10^9 cancels. */
  lemma FloorCancel(a: nat, q: nat)
    requires q > 0
    ensures q * GRAIN > 0
    ensures Floor(a * ONE, q * GRAIN) == Floor(a * GRAIN, q)
  {
    var n, p := a * GRAIN, Floor(a * GRAIN, q);
    assert a * ONE == n * GRAIN;
    assert p * (q * GRAIN) == (p * q) * GRAIN && (p + 1) * (q * GRAIN) == ((p + 1) * q) * GRAIN;
    FloorUnique(a * ONE, q * GRAIN, p);
  }

  /** Bounds on the division: it overstates `a / b` by at most the truncation of the
      divisor and understates it by less than one unit. */
  lemma DecimalDivisionBounds(a: nat, b: nat)
    requires DecimalDivision(a, b).Ok?
    ensures a * ONE < (DecimalDivision(a, b).value + 1) * b
    ensures DecimalDivision(a, b).value * (b - (GRAIN - 1)) <= a * ONE
  {
    DecimalDivisionIs(a, b);
    DivisionArithmetic(a, b, Floor(b, GRAIN), DecimalDivision(a, b).value);
  }

  lemma DivisionArithmetic(a: nat, b: nat, q: nat, r: nat)
    requires q * GRAIN <= b < (q + 1) * GRAIN
    requires r * q <= a * GRAIN < (r + 1) * q
    ensures a * ONE < (r + 1) * b
    ensures r * (b - (GRAIN - 1)) <= a * ONE
  {
    ScaledBelow(r + 1, q, b);
    ScaledAbove(r, q, b);
  }

  lemma ScaledBelow(r: nat, q: nat, b: nat)
    requires q * GRAIN <= b
    ensures (r * q) * GRAIN <= r * b
  {
    MulMono(q * GRAIN, b, r);
    Assoc(r, q, GRAIN);
  }

  lemma ScaledAbove(r: nat, q: nat, b: int)
    requires b < (q + 1) * GRAIN
    ensures r * (b - (GRAIN - 1)) <= (r * q) * GRAIN
  {
    Assoc(r, q, GRAIN);
    if b - (GRAIN - 1) >= 0 {
      MulMono(b - (GRAIN - 1), q * GRAIN, r);
    }
  }
}
