/**
 From a sized intent and its permit to an order: every clamp is done in base units, so the order is
 inside the permit, and the executor's own checks of the order against the permit pass.
 */
module OrderBuilder {
  import opened Wrappers
  import opened BigInt
  import opened ExecutorSteps

  /** Prices and amounts in base units; a size can be given directly or as a notional to divide by the price. */
  datatype Intent = Intent(
    market: string, side: Side, limitPrice: Option<nat>, price: Option<nat>,
    desiredQty: Option<nat>, desiredNotional: Option<nat>, style: Option<Style>)

  datatype BuildCode =
    | PriceRequired | SizeRequired | PrecisionLoss | SideConflict | PriceOutOfBounds | MarketConflict
    | StyleConflict | SizeZero | SignRefused | OrderInvalid

  datatype BuildResult = Built(order: Order) | NotBuilt(code: BuildCode)

  function PriceOf(i: Intent): Option<nat> { if i.limitPrice.Some? then i.limitPrice else i.price }

  /** A quotient that is not a whole number of base units has no exact conversion. */
  predicate ExactQuotient(notional: nat, price: nat) { price == 0 || notional * UNIT % price == 0 }

  /** The requested size; a quotient by a zero price is not finite, and converts to nothing. */
  function SizeOf(i: Intent, price: nat): Option<nat> {
    if i.desiredQty.Some? then i.desiredQty
    else if i.desiredNotional.Some? then
      if price == 0 then Some(0)
      else
        DivNonNegative(i.desiredNotional.value * UNIT, price);
        Some(i.desiredNotional.value * UNIT / price)
    else None
  }

  predicate Precise(i: Intent, price: nat) {
    i.desiredQty.None? && i.desiredNotional.Some? ==> ExactQuotient(i.desiredNotional.value, price)
  }

  function StyleOf(i: Intent): Style { if i.style.Some? then i.style.value else Limit }

  // ----- the clamp -----

  function Within(requested: nat, maxQty: nat): nat { if requested > maxQty then maxQty else requested }

  /** The two clamps leave `size` as the largest that fits, up to what one base unit of cash can hide. */
  ghost predicate Clamped(size: nat, requested: nat, price: nat, maxQty: nat, maxCash: nat) {
    var within := Within(requested, maxQty);
    && size <= within
    && CashNeededFor(size, price) <= maxCash
    && (CashNeededFor(within, price) <= maxCash ==> size == within)
    && (CashNeededFor(within, price) > maxCash ==>
          && size * price <= maxCash * UNIT < (size + 1) * price
          && (price <= UNIT ==> maxCash - 1 <= CashNeededFor(size, price)))
  }

  lemma CashAtMost(size: nat, price: nat, cash: nat)
    requires size * price <= cash * UNIT
    ensures CashNeededFor(size, price) <= cash
  {
    CashBounds(size, price);
    LessByFactor(CashNeededFor(size, price), cash + 1, UNIT);
  }

  lemma CashAtLeast(size: nat, price: nat, cash: int)
    requires cash * UNIT <= size * price
    ensures cash <= CashNeededFor(size, price)
  {
    CashBounds(size, price);
    LessByFactor(cash, CashNeededFor(size, price) + 1, UNIT);
  }

  lemma ScaledIsClamped(requested: nat, price: nat, maxQty: nat, maxCash: nat)
    requires var within := Within(requested, maxQty); CashNeededFor(within, price) > maxCash
    ensures price > 0 && maxCash * UNIT / price >= 0
    ensures Clamped(maxCash * UNIT / price, requested, price, maxQty, maxCash)
  {
    var within := Within(requested, maxQty);
    CashBounds(within, price);
    MulAtMost(maxCash + 1, CashNeededFor(within, price), UNIT);
    assert price > 0;
    var size := maxCash * UNIT / price;
    DivNonNegative(maxCash * UNIT, price);
    DivBounds(maxCash * UNIT, price);
    CashAtMost(size, price, maxCash);
    LessByFactor(size, within, price);
    if price <= UNIT {
      assert (size + 1) * price == size * price + price;
      CashAtLeast(size, price, maxCash - 1);
    }
  }

  // ----- the builder -----

  /** The price an intent names, its limit price first. */
  predicate Names(i: Intent, price: nat) {
    match i.limitPrice
    case Some(limit) => price == limit
    case None => i.price == Some(price)
  }

  /** The size it asks for: its quantity, or the size whose cost at the price is exactly its notional. */
  predicate Wants(i: Intent, price: nat, size: nat) {
    match (i.desiredQty, i.desiredNotional)
    case (Some(qty), _) => size == qty
    case (None, Some(notional)) => if price == 0 then size == 0 else size * price == notional * UNIT
    case (None, None) => false
  }

  predicate Asks(i: Intent, price: nat, size: nat) { Names(i, price) && Wants(i, price, size) }

  /** The style it is to be built in. */
  predicate Styled(i: Intent, style: Style) {
    match i.style
    case Some(named) => style == named
    case None => style == Limit
  }

  lemma {:induction false} AskedOnce(i: Intent, price: nat, size: nat)
    ensures Asks(i, price, size) <==> PriceOf(i) == Some(price) && SizeOf(i, price) == Some(size) && Precise(i, price)
  {
    if i.desiredQty.None? && i.desiredNotional.Some? && price > 0 {
      QuotientIs(i.desiredNotional.value * UNIT, price, size);
    }
  }

  lemma {:induction false} QuotientIs(n: nat, d: nat, q: nat)
    requires d > 0
    ensures q * d == n <==> n % d == 0 && n / d == q
  {
    DivBounds(n, d);
    if q * d == n { LessByFactor(q, n / d + 1, d); LessByFactor(n / d, q + 1, d); }
    assert n == n / d * d + n % d;
  }

  /** The permit is for this side, market, style and price, and leaves room; without cash only for an order too small to need any. */
  predicate HasRoom(i: Intent, p: Permit, price: nat, size: nat) {
    && (p.side == None || p.side == Some(i.side))
    && (p.market == "" || p.market == i.market)
    && (p.styles == [] || (match i.style case Some(named) => named in p.styles case None => Limit in p.styles))
    && (p.priceMin == None || p.priceMin.value <= price) && (p.priceMax == None || price <= p.priceMax.value)
    && price <= UNIT && size > 0 && p.maxQty > 0
    && (p.maxCash > 0 || CashNeededFor(if size < p.maxQty then size else p.maxQty, price) == 0)
  }

  /** What it takes: a price and a size that convert, a permit with room for them, and a signature. */
  ghost predicate CanBuild(i: Intent, p: Permit, signed: bool) {
    signed && exists price: nat, size: nat :: Asks(i, price, size) && HasRoom(i, p, price, size)
  }

  lemma {:induction false} CanBuildHere(i: Intent, p: Permit, signed: bool)
    ensures CanBuild(i, p, signed) <==>
              && signed && PriceOf(i).Some? && SizeOf(i, PriceOf(i).value).Some? && Precise(i, PriceOf(i).value)
              && HasRoom(i, p, PriceOf(i).value, SizeOf(i, PriceOf(i).value).value)
  {
    forall price: nat, size: nat
      ensures Asks(i, price, size) <==> PriceOf(i) == Some(price) && SizeOf(i, price) == Some(size) && Precise(i, price)
    {
      AskedOnce(i, price, size);
    }
  }

  lemma {:induction false} Imprecise(i: Intent, price: nat)
    requires PriceOf(i) == Some(price) && SizeOf(i, price).Some? && !Precise(i, price)
    ensures i.desiredQty == None && Names(i, price) && forall size: nat :: !Wants(i, price, size)
  {
    forall size: nat ensures !Wants(i, price, size) { AskedOnce(i, price, size); }
  }

  /** What a refusal says is so. */
  ghost predicate NotBuiltFor(code: BuildCode, i: Intent, p: Permit, signed: bool) {
    match code
    case PriceRequired => i.limitPrice == None && i.price == None
    case SizeRequired => i.desiredQty == None && i.desiredNotional == None
    case SideConflict => p.side == Some(if i.side == Buy then Sell else Buy)
    case PriceOutOfBounds =>
      exists price: nat :: Names(i, price)
        && ((p.priceMin.Some? && price < p.priceMin.value) || (p.priceMax.Some? && p.priceMax.value < price))
    case MarketConflict => p.market != "" && p.market != i.market
    case StyleConflict => p.styles != [] && forall style :: Styled(i, style) ==> style !in p.styles
    case PrecisionLoss => i.desiredQty == None && exists price: nat :: Names(i, price) && forall size: nat :: !Wants(i, price, size)
    case SizeZero =>
      p.maxQty == 0 || p.maxCash == 0 || exists price: nat, size: nat :: Asks(i, price, size) && (size == 0 || p.maxCash * UNIT < price)
    case SignRefused => !signed
    case OrderInvalid => exists price: nat :: Names(i, price) && price > UNIT
  }

  /** The two clamps; without room for anything nothing is left. */
  method Clamp(requested: nat, price: nat, p: Permit) returns (size: nat)
    ensures Clamped(size, requested, price, p.maxQty, p.maxCash)
    ensures var needsCash := CashNeededFor(Within(requested, p.maxQty), price) > 0;
            price <= UNIT ==> (size == 0 <==> requested == 0 || p.maxQty == 0 || (p.maxCash == 0 && needsCash))
    ensures size == 0 ==> requested == 0 || p.maxQty == 0 || p.maxCash == 0 || p.maxCash * UNIT < price
  {
    size := requested;
    if size > p.maxQty { size := p.maxQty; }
    CashBounds(size, price);
    var cash := CashNeededFor(size, price);
    if cash > p.maxCash {
      ScaledIsClamped(requested, price, p.maxQty, p.maxCash);
      DivBounds(p.maxCash * UNIT, price);
      size := p.maxCash * UNIT / price;
    }
  }

  /**
   `buildSignedOrder`; `signed` is the signer's verdict. The order is the intent's: its market, its side, its price, its
   style or LIMIT when it names none, and as much of its size as the permit has room for. No step divides by zero.
   */
  method BuildSignedOrder(i: Intent, p: Permit, orderId: Id, signed: bool) returns (r: BuildResult)
    ensures r.Built? ==>
              && r.order.id == orderId && r.order.permitId == p.id
              && r.order.market == i.market && r.order.side == i.side
              && r.order.style.Some? && Styled(i, r.order.style.value)
              && r.order.size > 0
              && exists size: nat :: Asks(i, r.order.price, size) && Clamped(r.order.size, size, r.order.price, p.maxQty, p.maxCash)
    ensures r.Built? <==> CanBuild(i, p, signed)
    ensures r.NotBuilt? ==> NotBuiltFor(r.code, i, p, signed)
    ensures r.Built? ==> Allows(p, r.order)
    ensures r.Built? ==> forall a: Answer :: WellFormed(p) && a.now <= p.expiresAt && MaySubmit(a.mode) ==>
              CheckOrder(r.order, p, a).None?
  {
    CanBuildHere(i, p, signed);
    var limit := PriceOf(i);
    if limit.None? { return NotBuilt(PriceRequired); }
    var priceBase := limit.value;
    assert Names(i, priceBase);
    var size := SizeOf(i, priceBase);
    if size.None? { return NotBuilt(SizeRequired); }
    if p.side.Some? && p.side.value != i.side { return NotBuilt(SideConflict); }
    if (p.priceMin.Some? && priceBase < p.priceMin.value) || (p.priceMax.Some? && priceBase > p.priceMax.value) {
      return NotBuilt(PriceOutOfBounds);
    }
    if p.market != "" && p.market != i.market { return NotBuilt(MarketConflict); }
    var orderType := StyleOf(i);
    if |p.styles| > 0 && orderType !in p.styles { return NotBuilt(StyleConflict); }
    if !Precise(i, priceBase) {
      Imprecise(i, priceBase);
      return NotBuilt(PrecisionLoss);
    }
    AskedOnce(i, priceBase, size.value);
    var sizeBase := Clamp(size.value, priceBase, p);
    if sizeBase == 0 { return NotBuilt(SizeZero); }
    if !signed { return NotBuilt(SignRefused); }
    if priceBase > UNIT { return NotBuilt(OrderInvalid); }
    return Built(Order(orderId, i.market, i.side, sizeBase, priceBase, p.id, Some(orderType)));
  }
}
