/** Integer division as the program has it: towards zero, for operands of either sign. */
module BigInt {
  const UNIT := 1_000_000

  function Max(a: int, b: int): int { if a >= b then a else b }

  function Min(a: int, b: int): int { if a <= b then a else b }

  function Abs(a: int): nat { if a >= 0 then a else -a }

  function TDiv(a: int, b: int): (q: int)
    requires b != 0
  {
    if (a >= 0) == (b > 0) then Abs(a) / Abs(b) else -(Abs(a) / Abs(b))
  }

  lemma MulAtMost(a: int, b: int, c: int)
    requires a <= b && c >= 0
    ensures a * c <= b * c && c * a <= c * b
  {}

  lemma LessByFactor(a: int, b: int, d: int)
    requires d > 0 && a * d < b * d
    ensures a < b
  {
    if a >= b { MulAtMost(b, a, d); }
  }

  lemma DivBounds(a: int, d: int)
    requires d > 0
    ensures a / d * d <= a < (a / d + 1) * d
  {
    assert a == a / d * d + a % d;
    assert (a / d + 1) * d == a / d * d + d;
  }

  lemma DivMonotone(a: int, b: int, d: int)
    requires a <= b && d > 0
    ensures a / d <= b / d
  {
    DivBounds(a, d);
    DivBounds(b, d);
    LessByFactor(a / d, b / d + 1, d);
  }

  /** A quotient is the only integer whose multiple of the divisor is that close. */
  lemma DivIs(a: int, d: int, q: int)
    requires d > 0 && q * d <= a < (q + 1) * d
    ensures a / d == q
  {
    DivBounds(a, d);
    LessByFactor(a / d, q + 1, d);
    LessByFactor(q, a / d + 1, d);
  }

  lemma DivNonNegative(a: nat, d: int)
    requires d > 0
    ensures a / d >= 0
  {
    DivBounds(a, d);
    LessByFactor(-1, a / d, d);
  }

  lemma TDivMonotone(a: int, b: int, d: int)
    requires a <= b && d > 0
    ensures TDiv(a, d) <= TDiv(b, d)
  {
    if a >= 0 {
      DivMonotone(a, b, d);
    } else if b < 0 {
      DivMonotone(-b, -a, d);
    } else {
      DivNonNegative(-a, d);
      DivNonNegative(b, d);
    }
  }

  /** `cashNeededFor`: the cash that `shares` cost at `price` each, in base units, rounded down. */
  function CashNeededFor(shares: int, price: int): int { TDiv(shares * price, UNIT) }

  /** Cash is the largest whole amount not above the exact product. */
  lemma CashBounds(shares: nat, price: nat)
    ensures CashNeededFor(shares, price) >= 0
    ensures CashNeededFor(shares, price) * UNIT <= shares * price < (CashNeededFor(shares, price) + 1) * UNIT
  {
    MulAtMost(0, shares, price);
    DivBounds(shares * price, UNIT);
    DivNonNegative(shares * price, UNIT);
  }

  lemma CashMonotone(shares: nat, price: nat, shares': nat, price': nat)
    requires shares <= shares' && price <= price'
    ensures CashNeededFor(shares, price) <= CashNeededFor(shares', price')
  {
    MulAtMost(shares, shares', price);
    MulAtMost(price, price', shares');
    TDivMonotone(shares * price, shares' * price', UNIT);
  }
}
