/**
 The risk gate: policy limits in base units first, then the reservation, then the permit that the
 order builder and the executor work under. The permit it mints, and the decision it records, always
 pass the schemas they are parsed by.
 */
module RiskGate {
  import opened Wrappers
  import opened BigInt
  import opened ExecutorSteps
  import opened MoneyKernel
  import Money

  const BPS := 10_000

  // ----- what the schemas check -----

  predicate IsHex(c: char) { '0' <= c <= '9' || 'a' <= c <= 'f' || 'A' <= c <= 'F' }

  /** Groups of 8, 4, 4, 4 and 12 hexadecimal digits. */
  predicate IsUuid(s: string) {
    && |s| == 36
    && forall i :: 0 <= i < 36 ==> if i == 8 || i == 13 || i == 18 || i == 23 then s[i] == '-' else IsHex(s[i])
  }

  /** A generated id. */
  type Uuid = s: string | IsUuid(s) witness "00000000-0000-0000-0000-000000000000"

  const VENUE_MODES := {"NORMAL", "POST_ONLY", "CANCEL_ONLY", "READ_ONLY", "UNAVAILABLE", "UNKNOWN"}

  predicate NonNegative(n: Option<int>) { n.Some? ==> n.value >= 0 }

  /** An execution permit as it is written out, with amounts in base units. */
  datatype PermitDoc = PermitDoc(
    permitId: string, decisionId: string, intentId: string,
    ledgerVersion: string, policyVersion: string, policyHash: string, quoteId: string, leaseEpoch: int,
    reservationIds: seq<string>, maxQty: int, maxCash: int, market: Option<string>,
    priceMin: Option<int>, priceMax: Option<int>, styles: seq<string>, venueMode: string,
    issuedAt: int, expiresAt: int)

  predicate PermitSchema(d: PermitDoc) {
    && IsUuid(d.permitId) && IsUuid(d.decisionId) && IsUuid(d.intentId)
    && d.ledgerVersion != "" && d.policyVersion != "" && d.policyHash != "" && d.quoteId != ""
    && d.leaseEpoch >= 0
    && (forall i :: 0 <= i < |d.reservationIds| ==> d.reservationIds[i] != "")
    && d.maxQty >= 0 && d.maxCash >= 0
    && d.market != Some("")
    && NonNegative(d.priceMin) && NonNegative(d.priceMax)
    && (forall i :: 0 <= i < |d.styles| ==> d.styles[i] != "")
    && d.venueMode in VENUE_MODES
    && Money.ValidDate(d.issuedAt) && Money.ValidDate(d.expiresAt)
  }

  /** A risk decision as it is written out, but for the fields any value of which passes. */
  datatype DecisionDoc = DecisionDoc(
    decisionId: string, intentId: string, maxQty: int, maxCash: int, venueMode: string,
    ledgerVersion: string, policyVersion: string, decidedAt: int)

  predicate DecisionSchema(d: DecisionDoc) {
    && IsUuid(d.decisionId) && IsUuid(d.intentId)
    && d.maxQty >= 0 && d.maxCash >= 0
    && d.venueMode in VENUE_MODES && d.ledgerVersion != "" && d.policyVersion != ""
    && Money.ValidDate(d.decidedAt)
  }

  // ----- input and output -----

  /**
   One intent to gate, with a limit price and a quantity, and what it is gated by. Fractions of the policy
   come in basis points, exposures in USD; `policyRest` and `intentRest` are the verdicts of the two
   schemas on the fields that are not here.
   */
  datatype Input = Input(
    funder: string, market: string, side: Side, size: nat, price: nat, intent: Id, intentRest: bool,
    policyVersion: string, policyRest: bool, capital: Option<nat>, orderBps: nat, marketBps: nat, portfolioBps: nat,
    marketExposure: real, portfolioExposure: real,
    venueMode: string, policyHash: string, quoteId: string, leaseEpoch: int, now: int,
    decision: Uuid, reservationId: Uuid, permitId: Uuid, conflicts: nat)

  predicate PolicySchema(x: Input) {
    x.policyRest && x.policyVersion != "" && x.orderBps <= BPS && x.marketBps <= BPS && x.portfolioBps <= BPS
  }

  predicate IntentSchema(x: Input) {
    x.intentRest && IsUuid(x.intent) && x.market != "" && x.size > 0 && x.price <= UNIT
  }

  datatype GateCode =
    | PolicyInvalid | IntentInvalid | NoCapitalBasis
    | OrderPctExceeded | MarketPctExceeded | PortfolioPctExceeded
    | KernelRefused(kernel: KernelCode)

  /** An exposure with more than six decimals is an exception. */
  datatype GateResult = Permitted(permit: Permit) | Refused(code: GateCode) | Threw

  // ----- the limits -----

  /** `decimalToBase`: negative amounts count for nothing, and nothing is rounded. */
  function ToBase(usd: real): (base: Option<nat>)
    ensures base.Some? && usd >= 0.0 ==> base.value as real == usd * 1_000_000.0
    ensures base.None? <==> usd >= 0.0 && usd * 1_000_000.0 != (usd * 1_000_000.0).Floor as real
  {
    if usd < 0.0 then Some(0)
    else if usd * 1_000_000.0 == (usd * 1_000_000.0).Floor as real then Some((usd * 1_000_000.0).Floor)
    else None
  }

  function Cap(capital: nat, bps: nat): (cap: nat)
    ensures cap * BPS <= capital * bps < (cap + 1) * BPS
  {
    MulAtMost(0, capital, bps);
    DivNonNegative(capital * bps, BPS);
    DivBounds(capital * bps, BPS);
    capital * bps / BPS
  }

  function Notional(x: Input): (cash: nat)
  {
    CashBounds(x.size, x.price);
    CashNeededFor(x.size, x.price)
  }

  predicate Based(x: Input) { PolicySchema(x) && IntentSchema(x) && x.capital.Some? }

  predicate FitsOrder(x: Input) { x.capital.Some? && Notional(x) <= Cap(x.capital.value, x.orderBps) }

  /** The exposure converts, and leaves room for the order under a fraction of the capital. */
  predicate Fits(x: Input, exposure: real, bps: nat) {
    && x.capital.Some? && ToBase(exposure).Some?
    && ToBase(exposure).value + Notional(x) <= Cap(x.capital.value, bps)
  }

  predicate FitsMarket(x: Input) { Fits(x, x.marketExposure, x.marketBps) }

  predicate FitsPortfolio(x: Input) { Fits(x, x.portfolioExposure, x.portfolioBps) }

  /** The two schemas, a capital basis, and the three limits of the policy. */
  predicate WithinPolicy(x: Input) { Based(x) && FitsOrder(x) && FitsMarket(x) && FitsPortfolio(x) }

  /** Neither exposure that is reached fails to convert. */
  predicate Converts(x: Input) {
    Based(x) && FitsOrder(x) ==> ToBase(x.marketExposure).Some? && (FitsMarket(x) ==> ToBase(x.portfolioExposure).Some?)
  }

  // ----- what is reserved and minted -----

  function KernelRequest(x: Input): (q: Request)
    ensures q.canonicalVenueMode <==>
              || x.venueMode == "NORMAL" || x.venueMode == "POST_ONLY" || x.venueMode == "CANCEL_ONLY"
              || x.venueMode == "READ_ONLY" || x.venueMode == "UNAVAILABLE" || x.venueMode == "UNKNOWN"
  {
    Request(x.funder, Money.PUSD, x.size, x.price, Notional(x), x.venueMode in VENUE_MODES, x.policyHash, x.quoteId,
            x.decision, x.intent, x.leaseEpoch, x.now, x.reservationId, x.permitId)
  }

  /** What the reservation does to the money. */
  function Reserved(s: Money.State, x: Input): (Money.State, Money.Code) {
    Money.Reserve(s, AuthorityRequest(KernelRequest(x)))
  }

  /** The permit the kernel builds for what it has reserved. */
  function Minted(x: Input): PermitDoc {
    PermitDoc(x.permitId, x.decision, x.intent, "0003", x.policyVersion, x.policyHash, x.quoteId, x.leaseEpoch,
              [x.reservationId], x.size, Notional(x), Some(x.market), Some(x.price), Some(x.price),
              ["LIMIT", "POST_ONLY"], x.venueMode, x.now, x.now + Money.PERMIT_TTL_MS)
  }

  function Decided(x: Input): DecisionDoc {
    DecisionDoc(x.decision, x.intent, x.size, Notional(x), x.venueMode, "0003", x.policyVersion, x.now)
  }

  /** The permit for this market, this side, exactly this price, and no more than was reserved. */
  function PermitFor(x: Input): Permit {
    Permit(x.permitId, x.leaseEpoch, [x.reservationId], x.size, Notional(x), x.market, Some(x.side),
           Some(x.price), Some(x.price), [Limit, PostOnly], x.now + Money.PERMIT_TTL_MS, true, false,
           PermitSchema(Minted(x)))
  }

  // ----- the gate in figures -----

  /** A dollar amount in base units; negative ones count for nothing. */
  predicate InBase(usd: real, base: nat) { base as real == if usd < 0.0 then 0.0 else usd * 1_000_000.0 }

  /** An exposure that converts and leaves room for `cash` within so many ten-thousandths of the capital. */
  ghost predicate LeavesRoom(usd: real, cash: nat, capital: nat, bps: nat) {
    exists base: nat :: InBase(usd, base) && (base + cash) * 10_000 <= capital * bps
  }

  /** What policy, intent and the three limits ask for. */
  ghost predicate Admits(x: Input) {
    && x.policyRest && x.policyVersion != "" && x.orderBps <= 10_000 && x.marketBps <= 10_000 && x.portfolioBps <= 10_000
    && x.intentRest && IsUuid(x.intent) && x.market != "" && x.size > 0 && x.price <= 1_000_000
    && x.capital.Some? && LimitsHold(x, x.capital.value)
  }

  ghost predicate LimitsHold(x: Input, capital: nat) {
    && LeavesRoom(0.0, Notional(x), capital, x.orderBps)
    && LeavesRoom(x.marketExposure, Notional(x), capital, x.marketBps)
    && LeavesRoom(x.portfolioExposure, Notional(x), capital, x.portfolioBps)
  }

  lemma {:induction false} CapMeans(n: nat, capital: nat, bps: nat)
    ensures n <= Cap(capital, bps) <==> n * 10_000 <= capital * bps
  {
    var cap := Cap(capital, bps);
    if n <= cap { MulAtMost(n, cap, BPS); } else { MulAtMost(cap + 1, n, BPS); }
  }

  lemma {:induction false} FitsMeans(x: Input, usd: real, bps: nat)
    requires x.capital.Some?
    ensures Fits(x, usd, bps) <==> LeavesRoom(usd, Notional(x), x.capital.value, bps)
  {
    var base := ToBase(usd);
    if base.Some? {
      assert InBase(usd, base.value);
      CapMeans(base.value + Notional(x), x.capital.value, bps);
      assert forall other: nat :: InBase(usd, other) ==> other == base.value;
    } else {
      assert forall other: nat :: !InBase(usd, other) by {
        forall other: nat ensures !InBase(usd, other) { assert (other as real).Floor == other; }
      }
    }
  }

  lemma {:induction false} AdmitsIff(x: Input)
    ensures WithinPolicy(x) <==> Admits(x)
  {
    if x.capital.Some? {
      FitsMeans(x, x.marketExposure, x.marketBps);
      FitsMeans(x, x.portfolioExposure, x.portfolioBps);
      CapMeans(Notional(x), x.capital.value, x.orderBps);
      assert InBase(0.0, 0);
    }
  }

  /** The permit of a grant: for this market, this side and exactly this price, a minute long, and for the one reservation. */
  predicate Bears(p: Permit, x: Input) {
    && p.id == x.permitId && p.leaseEpoch == x.leaseEpoch && p.reservationIds == [x.reservationId]
    && p.market == x.market && p.side == Some(x.side) && p.priceMin == Some(x.price) && p.priceMax == Some(x.price)
    && p.styles == [Limit, PostOnly] && p.expiresAt == x.now + 60_000
    && p.maxQty == x.size && p.maxCash == CashNeededFor(x.size, x.price)
    && p.singleUse && !p.usedAlready && WellFormed(p)
  }

  /** And its reservation: the order's cash out of the funder's account, in a row of the same limit and the same minute. */
  ghost predicate PaidFor(p: Permit, x: Input, s: Money.State, s': Money.State) {
    var k := Money.Key(x.funder, "pUSD");
    && p.maxCash > 0 && k in s.balances && s.balances[k].available >= p.maxCash
    && s'.balances == s.balances[k := Money.Balance(s.balances[k].available - p.maxCash, s.balances[k].committed + p.maxCash)]
    && x.reservationId !in s.rows
    && s'.rows == s.rows[x.reservationId :=
         Money.Reservation(k, x.intent, x.decision, x.permitId, p.maxCash, 0, 0, Money.Active, p.expiresAt)]
  }

  /** The permit as it is written out says what the permit says. */
  predicate Writes(d: PermitDoc, p: Permit) {
    && d.permitId == p.id && d.leaseEpoch == p.leaseEpoch && d.reservationIds == p.reservationIds
    && d.maxQty == p.maxQty && d.maxCash == p.maxCash && d.market == Some(p.market)
    && d.priceMin == p.priceMin && d.priceMax == p.priceMax && d.expiresAt == p.expiresAt && d.issuedAt + 60_000 == p.expiresAt
    && |d.styles| == |p.styles|
    && (forall i :: 0 <= i < |p.styles| ==> d.styles[i] == match p.styles[i]
                                                        case Limit => "LIMIT" case PostOnly => "POST_ONLY" case Fok => "FOK" case Ioc => "IOC")
  }

  /**
   Whatever the input, a permit that has been paid for passes its schema and is written out as it is, and the decision
   that goes with it passes its own: the refusals for a permit or a decision that does not are never reached.
   */
  lemma {:induction false} MintedPasses(s: KernelState, x: Input)
    requires PolicySchema(x) && IntentSchema(x) && Reserving(s, KernelRequest(x), x.conflicts).1.Granted?
    ensures PermitSchema(Minted(x)) && DecisionSchema(Decided(x)) && Writes(Minted(x), PermitFor(x))
    ensures Decided(x) == DecisionDoc(x.decision, x.intent, PermitFor(x).maxQty, PermitFor(x).maxCash, x.venueMode,
                                      Minted(x).ledgerVersion, x.policyVersion, Minted(x).issuedAt)
    ensures Minted(x).decisionId == x.decision && Minted(x).intentId == x.intent
    ensures Bears(PermitFor(x), x) && PaidFor(PermitFor(x), x, s.money, Reserved(s.money, x).0)
  {
    GrantedIff(s, KernelRequest(x), x.conflicts);
    assert IsUuid(x.permitId) && IsUuid(x.decision) && IsUuid(x.reservationId);
    assert Money.ValidDate(x.now) && Money.ValidDate(x.now + Money.PERMIT_TTL_MS);
  }

  /**
   `validateAndReserve`. Exactly when each refusal is returned and when a permit is; a grant has reserved the
   order's cash, and whatever is not a grant leaves money and log alone.
   */
  method ValidateAndReserve(kernel: Kernel, x: Input) returns (r: GateResult)
    modifies kernel, kernel.store
    ensures r == Refused(PolicyInvalid) <==> !PolicySchema(x)
    ensures r == Refused(IntentInvalid) <==> PolicySchema(x) && !IntentSchema(x)
    ensures r == Refused(NoCapitalBasis) <==> PolicySchema(x) && IntentSchema(x) && x.capital.None?
    ensures r == Refused(OrderPctExceeded) <==> Based(x) && !FitsOrder(x)
    ensures r == Refused(MarketPctExceeded) <==> Based(x) && FitsOrder(x) && ToBase(x.marketExposure).Some? && !FitsMarket(x)
    ensures r == Refused(PortfolioPctExceeded) <==>
              Based(x) && FitsOrder(x) && FitsMarket(x) && ToBase(x.portfolioExposure).Some? && !FitsPortfolio(x)
    ensures r.Threw? <==> !Converts(x)
    ensures var code := Reserving(old(kernel.View()), KernelRequest(x), x.conflicts).1;
            && (r.Permitted? <==> Admits(x) && code.Granted?)
            && (forall c :: r == Refused(KernelRefused(c)) <==> Admits(x) && !c.Granted? && c == code)
    ensures r.Permitted? ==> Bears(r.permit, x) && PaidFor(r.permit, x, old(kernel.store.View()), kernel.store.View())
    ensures r.Permitted? ==>
              && r.permit == PermitFor(x) && WithinPolicy(x)
              && Reserved(old(kernel.store.View()), x).1.Ok?
              && kernel.store.View() == Reserved(old(kernel.store.View()), x).0
    ensures !r.Permitted? ==> kernel.View() == old(kernel.View())
  {
    AdmitsIff(x);
    if !PolicySchema(x) { return Refused(PolicyInvalid); }
    if !IntentSchema(x) { return Refused(IntentInvalid); }
    if x.capital.None? { return Refused(NoCapitalBasis); }
    var capitalBase := x.capital.value;
    var orderNotionalBase := Notional(x);
    if orderNotionalBase > Cap(capitalBase, x.orderBps) { return Refused(OrderPctExceeded); }
    var currentMarketBase := ToBase(x.marketExposure);
    if currentMarketBase.None? { return Threw; }
    if currentMarketBase.value + orderNotionalBase > Cap(capitalBase, x.marketBps) { return Refused(MarketPctExceeded); }
    var currentPortfolioBase := ToBase(x.portfolioExposure);
    if currentPortfolioBase.None? { return Threw; }
    if currentPortfolioBase.value + orderNotionalBase > Cap(capitalBase, x.portfolioBps) { return Refused(PortfolioPctExceeded); }
    var code := kernel.Reserve(KernelRequest(x), x.conflicts);
    if !code.Granted? { return Refused(KernelRefused(code)); }
    MintedPasses(old(kernel.View()), x);
    assert PermitSchema(Minted(x)) && DecisionSchema(Decided(x));
    return Permitted(PermitFor(x));
  }
}
