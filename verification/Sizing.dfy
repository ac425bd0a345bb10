/**
 Expected value and fixed-point Kelly sizing, in base units with truncating division. The sized order
 fits the caps it was computed from, grows with the expected value, and is positive only for a real
 edge; and it passes the risk gate's three limits.
 */
module Sizing {
  import opened Wrappers
  import opened BigInt
  import RiskGate

  datatype Outcome = Yes | No

  // ----- expected value -----

  /** `EVCalculator.calculate`. */
  function ExpectedValue(probabilityYes: int, price: int, side: Outcome, feeBps: int): int {
    var fee := TDiv(price * feeBps, 10_000);
    var pWin := if side.Yes? then probabilityYes else UNIT - probabilityYes;
    var pLose := if side.Yes? then UNIT - probabilityYes else probabilityYes;
    TDiv(pWin * (UNIT - price) - pLose * price, UNIT) - fee
  }

  function WinProbability(probabilityYes: int, side: Outcome): int {
    if side.Yes? then probabilityYes else UNIT - probabilityYes
  }

  lemma TDivExact(k: int, d: int)
    requires d > 0
    ensures TDiv(k * d, d) == k
  {
    MulAtMost(0, Abs(k), d);
    DivIs(Abs(k) * d, d, Abs(k));
    if k >= 0 {
      assert Abs(k * d) == Abs(k) * d;
    } else {
      MulAtMost(k, -1, d);
      assert k * d < 0 && Abs(k * d) == Abs(k) * d;
    }
  }

  /** The division is exact: the expected value is win probability less price less fee, with nothing lost. */
  lemma ExpectedValueExact(probabilityYes: int, price: int, side: Outcome, feeBps: int)
    ensures ExpectedValue(probabilityYes, price, side, feeBps)
            == WinProbability(probabilityYes, side) - price - TDiv(price * feeBps, 10_000)
  {
    var p := WinProbability(probabilityYes, side);
    assert p * (UNIT - price) - (UNIT - p) * price == (p - price) * UNIT;
    TDivExact(p - price, UNIT);
  }

  // ----- sizing -----

  /** Policy fractions arrive rounded to basis points. */
  datatype Policy = Policy(minEdgeBps: int, kellyBps: int, orderBps: int, marketBps: int, portfolioBps: int)

  datatype Input = Input(
    ev: int, price: int, side: Outcome, portfolioValue: int, marketExposure: int, portfolioExposure: int, policy: Policy)

  datatype CapReason = OrderPct | MarketPct | PortfolioPct | MinEdge | ZeroSize

  datatype Result = Result(size: int, kellyFraction: int, edgeBps: int, capped: bool, reason: Option<CapReason>)

  function MulScale(a: int, b: int): int { TDiv(a * b, UNIT) }

  function DivScale(a: int, b: int): int { if b == 0 then 0 else TDiv(a * UNIT, b) }

  function EdgeBps(x: Input): int { if x.price > 0 then DivScale(x.ev * 10_000, x.price) else 0 }

  function OrderCap(x: Input): int { MulScale(x.portfolioValue, x.policy.orderBps) }

  function Remaining(cap: int, exposure: int): int { if cap > exposure then cap - exposure else 0 }

  function MarketRoom(x: Input): int { Remaining(MulScale(x.portfolioValue, x.policy.marketBps), x.marketExposure) }

  function PortfolioRoom(x: Input): int {
    Remaining(MulScale(x.portfolioValue, x.policy.portfolioBps), x.portfolioExposure)
  }

  function Odds(x: Input): int {
    var numerator := if x.side.Yes? then UNIT - x.price else x.price;
    var denominator := if x.side.Yes? then x.price else UNIT - x.price;
    if denominator > 0 then DivScale(numerator, denominator) else 0
  }

  function EdgeFraction(x: Input): int {
    var denominator := if x.side.Yes? then x.price else UNIT - x.price;
    if denominator > 0 then DivScale(x.ev, denominator) else 0
  }

  function Kelly(x: Input): int { if Odds(x) > 0 then DivScale(EdgeFraction(x), Odds(x)) else 0 }

  /** The fraction of the portfolio the policy's share of Kelly asks for. */
  function FractionalKelly(x: Input): int { TDiv(Kelly(x) * x.policy.kellyBps, 10_000) }

  function KellyCash(x: Input): int { MulScale(x.portfolioValue, FractionalKelly(x)) }

  function Least(a: int, b: int): int { if a <= b then a else b }

  function Cash(x: Input): int { Least(Least(Least(KellyCash(x), OrderCap(x)), MarketRoom(x)), PortfolioRoom(x)) }

  function Shares(cash: int, price: int): int { if price > 0 then TDiv(cash * UNIT, price) else 0 }

  /** The size alone. */
  function SizeOf(x: Input): int {
    if EdgeBps(x) <= x.policy.minEdgeBps || Shares(Cash(x), x.price) <= 0 then 0 else Shares(Cash(x), x.price)
  }

  /** `SizingEngine.size`: the edge threshold, then cap by cap; a positive size is capped exactly when Kelly asked for more. */
  method Size(x: Input) returns (r: Result)
    ensures r.size == SizeOf(x) >= 0 && r.edgeBps == EdgeBps(x)
    ensures r.size > 0 ==> r.kellyFraction == FractionalKelly(x) && (r.capped <==> Cash(x) < KellyCash(x))
    ensures r.size == 0 ==>
              r.capped && r.kellyFraction == 0 && r.reason == Some(if EdgeBps(x) <= x.policy.minEdgeBps then MinEdge else ZeroSize)
    ensures r.reason == Some(MinEdge) <==> EdgeBps(x) <= x.policy.minEdgeBps
    ensures r.size > 0 ==> (r.reason == None <==> !r.capped)
    ensures r.size > 0 && r.reason == Some(OrderPct) ==> Cash(x) == OrderCap(x)
    ensures r.size > 0 && r.reason == Some(MarketPct) ==> Cash(x) == MarketRoom(x)
    ensures r.size > 0 && r.reason == Some(PortfolioPct) ==> Cash(x) == PortfolioRoom(x)
  {
    var evBps := EdgeBps(x);
    if evBps <= x.policy.minEdgeBps { return Result(0, 0, evBps, true, Some(MinEdge)); }
    var fractionalKelly := FractionalKelly(x);
    var cash := KellyCash(x);
    var capped := false;
    var capReason: Option<CapReason> := None;
    if cash > OrderCap(x) {
      cash := OrderCap(x);
      capped, capReason := true, Some(OrderPct);
    }
    if cash > MarketRoom(x) {
      cash := MarketRoom(x);
      capped, capReason := true, Some(MarketPct);
    }
    if cash > PortfolioRoom(x) {
      cash := PortfolioRoom(x);
      capped, capReason := true, Some(PortfolioPct);
    }
    var size := Shares(cash, x.price);
    if size <= 0 { return Result(0, 0, evBps, true, Some(ZeroSize)); }
    return Result(size, fractionalKelly, evBps, capped, capReason);
  }

  // ----- what the figures are -----

  /** `q` is `a / b`, rounded towards zero. */
  predicate Rounds(q: int, a: int, b: int) {
    if a >= 0 then q * b <= a < (q + 1) * b else (q - 1) * b < a <= q * b
  }

  lemma {:induction false} TDivRounds(a: int, b: int)
    requires b > 0
    ensures Rounds(TDiv(a, b), a, b)
  {
    DivBounds(Abs(a), b);
    var q := Abs(a) / b;
    assert (-q - 1) * b == -((q + 1) * b);
  }

  /** What a share risks and what it can win; the two sides swap them. */
  function Risk(x: Input): int { match x.side case Yes => x.price case No => 1_000_000 - x.price }

  /** Above a sixth decimal nothing is added: every figure on the way to the size is its exact quotient, rounded towards zero. */
  lemma {:induction false} FiguresRound(x: Input)
    requires 0 < x.price < UNIT
    ensures Rounds(EdgeBps(x), x.ev * 10_000 * 1_000_000, x.price)
    ensures Rounds(EdgeFraction(x), x.ev * 1_000_000, Risk(x))
    ensures Rounds(Odds(x), (1_000_000 - Risk(x)) * 1_000_000, Risk(x))
    ensures if Odds(x) > 0 then Rounds(Kelly(x), EdgeFraction(x) * 1_000_000, Odds(x)) else Kelly(x) == 0
    ensures Rounds(FractionalKelly(x), Kelly(x) * x.policy.kellyBps, 10_000)
    ensures Rounds(KellyCash(x), x.portfolioValue * FractionalKelly(x), 1_000_000)
    ensures Rounds(OrderCap(x), x.portfolioValue * x.policy.orderBps, 1_000_000)
  {
    TDivRounds(x.ev * 10_000 * UNIT, x.price);
    TDivRounds(x.ev * UNIT, Risk(x));
    TDivRounds((UNIT - Risk(x)) * UNIT, Risk(x));
    if Odds(x) > 0 { TDivRounds(EdgeFraction(x) * UNIT, Odds(x)); }
    TDivRounds(Kelly(x) * x.policy.kellyBps, 10_000);
    TDivRounds(x.portfolioValue * FractionalKelly(x), UNIT);
    TDivRounds(x.portfolioValue * x.policy.orderBps, UNIT);
  }

  /** Room under a cap of so many millionths of the portfolio. */
  ghost predicate RoomUnder(room: int, value: int, bps: int, exposure: int) {
    room >= 0 && exists cap :: Rounds(cap, value * bps, 1_000_000) && (room == cap - exposure || (room == 0 && cap <= exposure))
  }

  lemma {:induction false} RoomsRound(x: Input)
    ensures RoomUnder(MarketRoom(x), x.portfolioValue, x.policy.marketBps, x.marketExposure)
    ensures RoomUnder(PortfolioRoom(x), x.portfolioValue, x.policy.portfolioBps, x.portfolioExposure)
  {
    TDivRounds(x.portfolioValue * x.policy.marketBps, UNIT);
    TDivRounds(x.portfolioValue * x.policy.portfolioBps, UNIT);
  }

  /** A size is the most shares the cash buys, and the cash is the least of what Kelly and the three caps allow. */
  lemma {:induction false} SizeSpendsCash(x: Input)
    requires SizeOf(x) > 0
    ensures exists cash :: SizeOf(x) * x.price <= cash * 1_000_000 < (SizeOf(x) + 1) * x.price && LeastOf(cash, x)
  {
    TDivRounds(Cash(x) * UNIT, x.price);
    TDivSign(Cash(x) * UNIT, x.price);
    assert LeastOf(Cash(x), x);
  }

  predicate LeastOf(cash: int, x: Input) {
    && cash <= KellyCash(x) && cash <= OrderCap(x) && cash <= MarketRoom(x) && cash <= PortfolioRoom(x)
    && (cash == KellyCash(x) || cash == OrderCap(x) || cash == MarketRoom(x) || cash == PortfolioRoom(x))
  }

  /**
   The edge is compared in millionths of a basis point: for a price of at most one dollar and a threshold below one
   hundred per cent, every positive expected value passes, and the threshold refuses exactly the others.
   */
  lemma {:induction false} ThresholdIsSign(x: Input)
    requires 0 < x.price <= UNIT && 0 <= x.policy.minEdgeBps < 10_000
    ensures EdgeBps(x) <= x.policy.minEdgeBps <==> x.ev <= 0
  {
    TDivRounds(x.ev * 10_000 * UNIT, x.price);
    var q := EdgeBps(x);
    if x.ev > 0 {
      if q + 1 <= 10_000 { MulAtMost(q + 1, 10_000, x.price); }
      MulAtMost(1, x.ev, 10_000 * UNIT);
    } else if q > 0 {
      MulAtMost(1, q, x.price);
    }
  }

  // ----- it fits -----

  lemma TDivSign(a: int, b: int)
    requires b > 0
    ensures TDiv(a, b) > 0 ==> a > 0 && TDiv(a, b) == a / b && TDiv(a, b) * b <= a
  {
    if a >= 0 {
      DivBounds(a, b);
    } else {
      DivNonNegative(-a, b);
    }
  }

  /** The cash a positive size costs is within what was allotted. */
  lemma SharesCost(cash: int, price: int)
    ensures Shares(cash, price) > 0 ==> cash > 0 && 0 <= CashNeededFor(Shares(cash, price), price) <= cash
  {
    var size := Shares(cash, price);
    if size > 0 {
      TDivSign(cash * UNIT, price);
      CashBounds(size, price);
      LessByFactor(CashNeededFor(size, price), cash + 1, UNIT);
    }
  }

  /** A positive size fits the order cap and what is left of the market and portfolio caps. */
  lemma SizeFitsCaps(x: Input)
    ensures var needed := CashNeededFor(SizeOf(x), x.price);
            SizeOf(x) > 0 ==>
              needed <= OrderCap(x) && needed <= MarketRoom(x) && needed <= PortfolioRoom(x) && needed <= KellyCash(x)
  {
    SharesCost(Cash(x), x.price);
  }

  // ----- it grows with the edge -----

  lemma DivScaleMonotone(a: int, b: int, d: int)
    requires a <= b && d > 0
    ensures DivScale(a, d) <= DivScale(b, d)
  {
    TDivMonotone(a * UNIT, b * UNIT, d);
  }

  lemma FractionMonotone(x: Input, x': Input)
    requires x'.ev >= x.ev && x' == x.(ev := x'.ev) && x.policy.kellyBps >= 0
    ensures FractionalKelly(x) <= FractionalKelly(x')
  {
    var denominator := if x.side.Yes? then x.price else UNIT - x.price;
    if denominator > 0 { DivScaleMonotone(x.ev, x'.ev, denominator); }
    if Odds(x) > 0 { DivScaleMonotone(EdgeFraction(x), EdgeFraction(x'), Odds(x)); }
    assert Odds(x') == Odds(x);
    MulAtMost(Kelly(x), Kelly(x'), x.policy.kellyBps);
    TDivMonotone(Kelly(x) * x.policy.kellyBps, Kelly(x') * x.policy.kellyBps, 10_000);
  }

  lemma CashMonotoneInEdge(x: Input, x': Input)
    requires x'.ev >= x.ev && x' == x.(ev := x'.ev) && x.policy.kellyBps >= 0 && x.portfolioValue >= 0
    ensures Cash(x) <= Cash(x')
  {
    FractionMonotone(x, x');
    MulAtMost(FractionalKelly(x), FractionalKelly(x'), x.portfolioValue);
    TDivMonotone(x.portfolioValue * FractionalKelly(x), x.portfolioValue * FractionalKelly(x'), UNIT);
  }

  /** More expected value never sizes less, all else being equal. */
  lemma SizeMonotone(x: Input, x': Input)
    requires x'.ev >= x.ev && x' == x.(ev := x'.ev) && x.policy.kellyBps >= 0 && x.portfolioValue >= 0
    ensures SizeOf(x) <= SizeOf(x')
  {
    CashMonotoneInEdge(x, x');
    if x.price > 0 {
      DivScaleMonotone(x.ev * 10_000, x'.ev * 10_000, x.price);
      TDivMonotone(Cash(x) * UNIT, Cash(x') * UNIT, x.price);
    }
  }

  // ----- it means an edge -----

  /** A positive size means a win probability above price and fee, in base units, with no rounding to hide behind. */
  lemma PositiveSizeMeansEdge(x: Input, probabilityYes: int, feeBps: int)
    requires x.policy.minEdgeBps >= 0
    ensures x.ev == ExpectedValue(probabilityYes, x.price, x.side, feeBps) && SizeOf(x) > 0 ==>
              WinProbability(probabilityYes, x.side) > x.price + TDiv(x.price * feeBps, 10_000)
  {
    ExpectedValueExact(probabilityYes, x.price, x.side, feeBps);
    if x.price > 0 { TDivSign(x.ev * 10_000 * UNIT, x.price); }
  }

  // ----- it passes the gate -----

  /**
   The engine reads a basis point as a millionth and the gate as a ten-thousandth, so each of the engine's caps is
   the hundredth part of the gate's; the two are the same exactly when both are nothing.
   */
  lemma {:induction false} CapIsHundredth(value: nat, bps: nat)
    ensures MulScale(value, bps) == RiskGate.Cap(value, bps) / 100
    ensures MulScale(value, bps) == RiskGate.Cap(value, bps) <==> value * bps < RiskGate.BPS
  {
    var product, cap := value * bps, RiskGate.Cap(value, bps);
    MulAtMost(0, value, bps);
    HundredthOf(product, cap);
    DivNonNegative(cap, 100);
    if product < RiskGate.BPS { LessByFactor(cap, 1, RiskGate.BPS); }
    if cap == 0 { assert product < RiskGate.BPS; }
  }

  lemma {:induction false} HundredthOf(product: nat, cap: nat)
    requires cap * RiskGate.BPS <= product < (cap + 1) * RiskGate.BPS
    ensures TDiv(product, UNIT) == cap / 100
  {
    DivBounds(cap, 100);
    DivIs(product, UNIT, cap / 100);
  }

  /**
   A sized order passes all three of the gate's limits, and would pass them with a hundredth of the capital.
   */
  lemma {:induction false} SizedPassesGate(x: Input, capital: nat)
    requires capital == x.portfolioValue
    requires x.policy.orderBps >= 0 && x.policy.marketBps >= 0 && x.policy.portfolioBps >= 0
    requires x.marketExposure >= 0 && x.portfolioExposure >= 0
    ensures var needed := CashNeededFor(SizeOf(x), x.price);
            SizeOf(x) > 0 ==>
            && 100 * needed <= RiskGate.Cap(capital, x.policy.orderBps)
            && 100 * (x.marketExposure + needed) <= RiskGate.Cap(capital, x.policy.marketBps)
            && 100 * (x.portfolioExposure + needed) <= RiskGate.Cap(capital, x.policy.portfolioBps)
  {
    SharesCost(Cash(x), x.price);
    CapIsHundredth(capital, x.policy.orderBps);
    CapIsHundredth(capital, x.policy.marketBps);
    CapIsHundredth(capital, x.policy.portfolioBps);
  }
}
