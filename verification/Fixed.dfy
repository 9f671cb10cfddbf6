/** Checked 128-bit unsigned integers and 18-digit fixed-point decimals.

    A `Decimal` is the natural number of its atomics, so 1.0 is `ONE`.  Products and
    quotients are computed wide and floored; a result that does not fit 128 bits, a
    zero denominator or a negative difference aborts the transaction. */
module Fixed {

  const ONE: nat := 1_000_000_000_000_000_000
  const LIMIT: nat := 0x1_0000_0000_0000_0000_0000_0000_0000_0000

  datatype Error =
    | Overflow
    | Underflow
    | DivideByZero
    | InvalidValidator
    | TooManyCoins
    | NothingPaid
    | Unauthorized
    | Paused
    | MissingFeeCollector
    | NoDelegation
    | DustUndelegation
    | NothingToWithdraw
    | ChainRejected

  /** Outcome of a computation that may abort; used with `:-`. */
  datatype Result<+T> = Ok(value: T) | Err(error: Error) {
    predicate IsFailure() {
      Err?
    }

    function PropagateFailure<U>(): Result<U>
      requires Err?
    {
      Err(error)
    }

    function Extract(): T
      requires Ok?
    {
      value
    }
  }

  datatype Option<+T> = None | Some(value: T) {
    function GetOr(default: T): T {
      if Some? then value else default
    }
  }

  function Fit(a: nat): Result<nat> {
    if a < LIMIT then Ok(a) else Err(Overflow)
  }

  function Add(a: nat, b: nat): Result<nat> {
    Fit(a + b)
  }

  function Sub(a: nat, b: nat): Result<nat> {
    if b <= a then Ok(a - b) else Err(Underflow)
  }

  /** Floored quotient. */
  function Floor(n: nat, d: nat): (q: nat)
    requires d > 0
    ensures q * d <= n < (q + 1) * d
  {
    n / d
  }

  /** `Uint128 * Decimal`: the whole part of the product. */
  function Times(a: nat, d: nat): Result<nat> {
    Fit(Floor(a * d, ONE))
  }

  /** `Decimal::from_ratio`. */
  function Ratio(a: nat, b: nat): Result<nat> {
    if b == 0 then Err(DivideByZero) else Fit(Floor(a * ONE, b))
  }

  function Min(a: nat, b: nat): nat {
    if a <= b then a else b
  }

  /** A difference with its sign: `negative` holds when the subtrahend is larger. */
  datatype SignedInt = SignedInt(magnitude: nat, negative: bool)

  /** The signed difference carries the exact integer difference. */
  function FromSubtraction(minuend: nat, subtrahend: nat): (r: SignedInt)
    ensures minuend == if r.negative then subtrahend - r.magnitude else subtrahend + r.magnitude
    ensures r.negative ==> r.magnitude > 0
  {
    match Sub(minuend, subtrahend)
    case Ok(d) => SignedInt(d, false)
    case Err(_) => SignedInt(subtrahend - minuend, true)
  }

  // ----- floor arithmetic -----

  /** The floor is the largest integer whose multiple stays within the dividend. */
  lemma FloorIsLargest(n: nat, d: nat, k: nat)
    requires d > 0
    ensures k * d <= n <==> k <= Floor(n, d)
  {
    var q := Floor(n, d);
    if k <= q {
      MulMono(k, q, d);
    } else {
      MulMono(q + 1, k, d);
    }
  }

  lemma MulMono(a: nat, b: nat, c: nat)
    requires a <= b
    ensures a * c <= b * c
  {
  }

  lemma MulCancel(a: nat, b: nat, c: nat)
    requires c > 0 && a * c <= b * c
    ensures a <= b
  {
  }

  lemma MulCancelStrict(a: nat, b: nat, c: nat)
    requires a * c < b * c
    ensures a < b
  {
  }

  lemma Assoc(a: nat, b: nat, c: nat)
    ensures (a * b) * c == a * (c * b)
  {
  }

  lemma MulPositive(a: nat, b: nat)
    requires a > 0 && b > 0
    ensures a * b > 0
  {
  }

  /** A quotient is determined by its bounds. */
  lemma FloorUnique(n: nat, d: nat, q: nat)
    requires d > 0 && q * d <= n < (q + 1) * d
    ensures Floor(n, d) == q
  {
    FloorIsLargest(n, d, q);
    FloorIsLargest(n, d, q + 1);
  }

  /** Two successive floors are one floor by the product. */
  lemma FloorFloor(n: nat, d: nat, e: nat)
    requires d > 0 && e > 0
    ensures d * e > 0
    ensures Floor(Floor(n, d), e) == Floor(n, d * e)
  {
    hide Floor;
    MulPositive(d, e);
    var q := Floor(n, d);
    var p := Floor(q, e);
    MulMono(p * e, q, d);
    MulMono(q + 1, (p + 1) * e, d);
    Assoc(p, e, d);
    Assoc(p + 1, e, d);
    FloorUnique(n, d * e, p);
  }
}
