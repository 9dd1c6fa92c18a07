/** Deposit and withdrawal fees: a rate rounded down plus a flat amount, in u128 and back to u64. */
module Fees {
  import opened Bytes

  datatype FeeResult = FeeResult(fee: u64, net: u64)
  datatype FeeError = Overflow | DivisionByZero | Underflow

  datatype Rate = Rate(flat: u64, numerator: u64, denominator: u64)

  const U128_MODULUS: int := 0x1_0000_0000_0000_0000_0000_0000_0000_0000

  function CalculateFee(amount: u64, r: Rate): Result<FeeResult, FeeError> {
    var product := amount * r.numerator;
    if product >= U128_MODULUS then Err(Overflow)
    else if r.denominator == 0 then Err(DivisionByZero)
    else
      var raw := product / r.denominator + r.flat;
      if raw >= U128_MODULUS then Err(Overflow)
      else
        var fee := raw % U64_MODULUS;
        if amount < fee then Err(Underflow) else Ok(FeeResult(fee, amount - fee))
  }

  /** The fee the schedule asks for: the exact floor of the rate plus the flat part. */
  function ExactFee(amount: u64, r: Rate): nat
    requires r.denominator > 0
  {
    amount * r.numerator / r.denominator + r.flat
  }

  lemma MulBound(a: nat, b: nat, m: nat)
    requires a < m && b < m
    ensures 0 <= a * b <= (m - 1) * (m - 1)
  {
    assert a * b <= (m - 1) * b by { MulMonotone(a, m - 1, b); }
    assert (m - 1) * b <= (m - 1) * (m - 1) by { MulMonotone(b, m - 1, m - 1); }
  }

  lemma MulMonotone(a: nat, b: nat, c: nat)
    requires a <= b
    ensures a * c <= b * c
  {
  }

  lemma DivBound(x: nat, d: nat)
    requires d > 0
    ensures 0 <= x / d <= x
  {
    assert x / d * 1 <= x / d * d by { MulMonotone(1, d, x / d); }
  }

  lemma FeeFitsU128(amount: u64, r: Rate)
    requires r.denominator > 0
    ensures 0 <= amount * r.numerator < U128_MODULUS
    ensures ExactFee(amount, r) < U128_MODULUS
  {
    MulBound(amount, r.numerator, U64_MODULUS);
    DivBound(amount * r.numerator, r.denominator);
  }

  /**
   A fee is computed exactly when the denominator is non-zero and the truncated fee does not
   exceed the amount. Fee and net then make up the amount, and the fee is the scheduled one
   exactly if that fits 64 bits.
   */
  lemma FeeMeaning(amount: u64, r: Rate)
    ensures CalculateFee(amount, r).Ok? <==> r.denominator > 0 && ExactFee(amount, r) % U64_MODULUS <= amount
    ensures CalculateFee(amount, r).Ok? ==>
              var f := CalculateFee(amount, r).value;
              && f.fee + f.net == amount
              && f.fee == ExactFee(amount, r) % U64_MODULUS
              && (f.fee == ExactFee(amount, r) <==> ExactFee(amount, r) < U64_MODULUS)
  {
    if r.denominator > 0 {
      FeeFitsU128(amount, r);
    } else {
      MulBound(amount, r.numerator, U64_MODULUS);
    }
  }

  /** Truncation is real: a full-rate fee with a flat part of two on the largest amount comes out as one. */
  lemma FeeTruncates()
    ensures CalculateFee(0xFFFF_FFFF_FFFF_FFFF, Rate(2, 1, 1)) == Ok(FeeResult(1, 0xFFFF_FFFF_FFFF_FFFE))
  {
  }

  lemma Distribute(a: int, b: int, d: int)
    ensures (a + b) * d == a * d + b * d
  {
  }

  lemma Euclid(x: nat, d: nat)
    requires d > 0
    ensures x == x / d * d + x % d && 0 <= x % d < d
  {
  }

  lemma DivUnique(x: nat, d: nat, q: nat, rem: nat)
    requires d > 0 && x == q * d + rem && rem < d
    ensures x / d == q
  {
    Euclid(x, d);
    var q' := x / d;
    Distribute(q, q' - q, d);
    assert q' > q ==> (q' - q) * d >= d by { if q' > q { MulMonotone(1, q' - q, d); } }
    Distribute(q', q - q', d);
    assert q > q' ==> (q - q') * d >= d by { if q > q' { MulMonotone(1, q - q', d); } }
  }

  lemma DivOfSum(d: nat, q: nat, r: nat, q': nat, r': nat, x: nat)
    requires d > 0 && r < d && r' < d && x == q * d + r + (q' * d + r')
    ensures x / d == q + q' + (if r + r' >= d then 1 else 0)
  {
    Distribute(q, q', d);
    Distribute(q + q', 1, d);
    if r + r' >= d {
      DivUnique(x, d, q + q' + 1, r + r' - d);
    } else {
      DivUnique(x, d, q + q', r + r');
    }
  }

  lemma DivAdd(x: nat, y: nat, d: nat)
    requires d > 0
    ensures (x + y) / d == x / d + y / d + (if x % d + y % d >= d then 1 else 0)
  {
    Euclid(x, d);
    Euclid(y, d);
    DivOfSum(d, x / d, x % d, y / d, y % d, x + y);
  }

  lemma CeilBound(rem: nat, q: nat, r: nat, d: nat, k: nat)
    requires d > 0 && rem < d && r < d && q * d + r <= k * d
    ensures q + (if rem + r >= d then 1 else 0) <= k
  {
    Distribute(k, q - k, d);
    assert q >= k ==> (q - k) * d >= 0 by { if q >= k { MulMonotone(0, q - k, d); } }
    assert q > k ==> (q - k) * d >= d by { if q > k { MulMonotone(1, q - k, d); } }
  }

  lemma ScaledGap(a: nat, b: nat, n: nat, d: nat)
    requires a <= b && n <= d && d > 0
    ensures 0 <= a * n && 0 <= b * n
    ensures a * n / d <= b * n / d <= a * n / d + (b - a)
  {
    Distribute(a, b - a, n);
    MulMonotone(0, a, n);
    MulMonotone(0, b - a, n);
    MulMonotone(n, d, b - a);
    var x: nat, y: nat := a * n, (b - a) * n;
    DivAdd(x, y, d);
    Euclid(x, d);
    Euclid(y, d);
    CeilBound(x % d, y / d, y % d, d, b - a);
    DivBound(y, d);
  }

  lemma TruncatedGap(a: nat, b: nat, fa: nat, fb: nat)
    requires a <= b && fa <= fb <= fa + (b - a) && fb < 2 * U64_MODULUS
    ensures a - fa % U64_MODULUS <= b - fb % U64_MODULUS
  {
  }

  lemma ExactFeeBound(a: u64, r: Rate)
    requires r.numerator <= r.denominator && r.denominator > 0
    ensures ExactFee(a, r) <= a + r.flat
  {
    ScaledGap(0, a, r.numerator, r.denominator);
    assert 0 * r.numerator == 0;
  }

  /** With a rate of at most one, a larger amount never nets less, truncated fees included. */
  lemma NetIsMonotone(a: u64, b: u64, r: Rate)
    requires a <= b && r.numerator <= r.denominator
    requires CalculateFee(a, r).Ok? && CalculateFee(b, r).Ok?
    ensures CalculateFee(a, r).value.net <= CalculateFee(b, r).value.net
  {
    FeeMeaning(a, r);
    FeeMeaning(b, r);
    ScaledGap(a, b, r.numerator, r.denominator);
    ExactFeeBound(b, r);
    TruncatedGap(a, b, ExactFee(a, r), ExactFee(b, r));
  }

  /**
   Splitting a payment lowers the total fee exactly when there is no flat part and the two
   roundings together lose a whole unit; a flat part of at least one rules it out.
   */
  lemma SplittingLowersFeeIff(a: u64, b: u64, r: Rate)
    requires r.denominator > 0 && a + b < U64_MODULUS
    ensures ExactFee(a, r) + ExactFee(b, r) < ExactFee(a + b, r) <==>
            r.flat == 0 && a * r.numerator % r.denominator + b * r.numerator % r.denominator >= r.denominator
  {
    MulMonotone(0, a, r.numerator);
    MulMonotone(0, b, r.numerator);
    Distribute(a, b, r.numerator);
    DivAdd(a * r.numerator, b * r.numerator, r.denominator);
  }

  /** How many times 2^64 the scheduled fee exceeds what is charged. */
  function Overflows(amount: u64, r: Rate): nat
    requires r.denominator > 0
  {
    ExactFee(amount, r) / U64_MODULUS
  }

  lemma ExactSplit(a: u64, b: u64, r: Rate)
    requires r.denominator > 0 && a + b < U64_MODULUS
    ensures var lost := ExactFee(a, r) + ExactFee(b, r) - ExactFee(a + b, r);
            lost == r.flat || lost == r.flat - 1
  {
    MulMonotone(0, a, r.numerator);
    MulMonotone(0, b, r.numerator);
    Distribute(a, b, r.numerator);
    DivAdd(a * r.numerator, b * r.numerator, r.denominator);
  }

  /**
   With a flat part, splitting a payment does not lower the fee that is charged exactly if the
   parts' fees do not overflow 64 bits more often than the fee of the whole.
   */
  lemma SplittingKeepsChargeIff(a: u64, b: u64, r: Rate)
    requires a + b < U64_MODULUS && r.flat >= 1
    requires CalculateFee(a, r).Ok? && CalculateFee(b, r).Ok? && CalculateFee(a + b, r).Ok?
    ensures r.denominator > 0
    ensures CalculateFee(a + b, r).value.fee <= CalculateFee(a, r).value.fee + CalculateFee(b, r).value.fee
       <==> Overflows(a, r) + Overflows(b, r) <= Overflows(a + b, r)
  {
    FeeMeaning(a, r);
    FeeMeaning(b, r);
    FeeMeaning(a + b, r);
    ExactSplit(a, b, r);
  }

  /**
   Splitting can lower the charge: with full rate and the largest flat part four costs three, but
   twice two costs two.
   */
  lemma SplittingCanLowerCharge()
    ensures var r := Rate(0xFFFF_FFFF_FFFF_FFFF, 1, 1);
            && CalculateFee(4, r) == Ok(FeeResult(3, 1))
            && CalculateFee(2, r) == Ok(FeeResult(1, 1))
  {
  }
}
