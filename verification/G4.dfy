/**
 One step of the live core: gate and reserve, build and sign, check the caps and the loss latch,
 submit. The step either submits, or gives the money back.
 */
module G4 {
  import opened Wrappers
  import opened BigInt
  import opened ExecutorSteps
  import opened LiveAccounting
  import opened MoneyKernel
  import opened OrderBuilder
  import opened RiskGate
  import Executor
  import ExecutorFills
  import Money

  datatype Signing = Signs | RefusesToSign | FailsToSign

  /**
   `entry` is the verdict of the financial gate, the forecast, the book regime and the edge; `gate` holds
   the size and price they led to. `exposure` is the open exposure in USD the step was handed.
   */
  datatype StepInput = StepInput(
    entry: bool, gate: RiskGate.Input, orderId: Id, signing: Signing, exposure: real, latched: bool, answer: Answer)

  datatype Reason =
    | NoEntry | SizedToZero | Gated(gate: GateCode) | SignFailed | BuildRefused(build: BuildCode)
    | CapUnconfigured | CapExceeded | LossCapUnconfigured | GuardUnwired | LossLatched
    | ExecutorRefused(outcome: Outcome)

  /** `result` is absent when the outcome is still to be reconciled; an exception of the gate goes through. */
  datatype StepResult =
    | NoTrade(reason: Reason)
    | Threw
    | Trade(order: Order, permit: Permit, result: Option<OrderResult>, booked: real)

  function IntentFor(x: RiskGate.Input): Intent {
    Intent(x.market, x.side, Some(x.price), None, Some(x.size), None, None)
  }

  function FillOf(o: Order, r: OrderResult): Option<Fill> {
    DeriveLiveFill(Usd(o.price), Usd(r.filled), if r.average.Some? then Some(Usd(r.average.value)) else None)
  }

  /** What the step books, and what it checked against the cap. */
  function BookedFor(o: Order, result: Option<OrderResult>): real {
    SubmitExposure(Usd(o.size), Usd(o.price), if result.Some? then FillOf(o, result.value) else None)
  }

  function StepNotional(x: RiskGate.Input): real { Usd(x.size) * Usd(x.price) }

  // ----- what a step comes to, in the terms of its input -----

  /** The one order a step can send: the gate's market, side, size and price, as a limit order. */
  function OrderFor(x: StepInput): Order {
    Order(x.orderId, x.gate.market, x.gate.side, x.gate.size, x.gate.price, x.gate.permitId, Some(Limit))
  }

  /** The configuration a live step is held to. */
  datatype Guards = Guards(capUsd: Option<real>, lossCap: Option<real>, wired: bool)

  /** A positive cap with room for the order, a positive loss cap, a wired guard, and its latch off. */
  predicate Cleared(x: StepInput, c: Guards) {
    && c.capUsd.Some? && 0.0 < c.capUsd.value
    && x.exposure + Usd(x.gate.size) * Usd(x.gate.price) <= c.capUsd.value
    && c.lossCap.Some? && 0.0 < c.lossCap.value
    && c.wired && !x.latched
  }

  /** What it takes for a step to hand its order to the executor. */
  ghost predicate Reaches(x: StepInput, c: Guards, s: KernelState) {
    && x.entry && x.gate.size > 0 && Admits(x.gate) && Reserving(s, KernelRequest(x.gate), x.gate.conflicts).1.Granted?
    && x.signing == Signs && Cleared(x, c)
  }

  /** And for the executor to make the request. */
  ghost predicate Requests(x: StepInput, c: Guards, s: KernelState, g: Shared, w: Worker) {
    Reaches(x, c, s) && Executor.Goes(g, w, OrderFor(x), PermitFor(x.gate), x.answer)
  }

  /** What the reason of a step that does not trade says is so. */
  ghost predicate StopsFor(reason: Reason, x: StepInput, c: Guards, s: KernelState, g: Shared, w: Worker) {
    match reason
    case NoEntry => !x.entry
    case SizedToZero => x.gate.size == 0
    case Gated(code) =>
      if code.KernelRefused? then RefusedFor(code.kernel, s.money, KernelRequest(x.gate), x.gate.conflicts) else !Admits(x.gate)
    case SignFailed => x.signing == FailsToSign
    case BuildRefused(code) => code == SignRefused && x.signing == RefusesToSign
    case CapUnconfigured => c.capUsd.None? || c.capUsd.value <= 0.0
    case CapExceeded => c.capUsd.Some? && c.capUsd.value < x.exposure + Usd(x.gate.size) * Usd(x.gate.price)
    case LossCapUnconfigured => c.lossCap.None? || c.lossCap.value <= 0.0
    case GuardUnwired => !c.wired
    case LossLatched => x.latched
    case ExecutorRefused(out) => RefusedBy(out, x, g, w, OrderFor(x), PermitFor(x.gate))
  }

  /** The executor's refusal is the one the answer calls for, or names what stood in the way of the request. */
  ghost predicate RefusedBy(out: Outcome, x: StepInput, g: Shared, w: Worker, o: Order, p: Permit) {
    if Executor.Contacted(out) then Executor.AnswerEnds(x.answer.placed, out)
    else Executor.TurnedAwayFor(out, g, w, o, p, x.answer)
  }

  /** How a submit of the step's order ends the step: traded exactly when the venue may have the order. */
  ghost predicate SubmitEnds(x: StepInput, g: Shared, w: Worker, o: Order, p: Permit, r: StepResult) {
    && (r.Trade? <==> Executor.Goes(g, w, o, p, x.answer) && !Executor.NeverLeft(x.answer.placed) && x.answer.placed != Refusal)
    && (!r.Trade? ==> r.NoTrade? && r.reason.ExecutorRefused? && RefusedBy(r.reason.outcome, x, g, w, o, p))
  }

  /** A step that got as far as the submit. */
  lemma {:induction false} SubmitEndsStep(x: StepInput, c: Guards, s: KernelState, g: Shared, w: Worker, r: StepResult)
    requires Reaches(x, c, s) && SubmitEnds(x, g, w, OrderFor(x), PermitFor(x.gate), r)
    ensures Ended(x, c, s, g, w, r)
    ensures Requests(x, c, s, g, w) <==> Executor.Goes(g, w, OrderFor(x), PermitFor(x.gate), x.answer)
  {}

  /** A step that stopped before it. */
  lemma {:induction false} StopEndsStep(x: StepInput, c: Guards, s: KernelState, g: Shared, w: Worker, reason: Reason)
    requires !Reaches(x, c, s) && StopsFor(reason, x, c, s, g, w) && !reason.ExecutorRefused?
    ensures Ended(x, c, s, g, w, NoTrade(reason)) && CallsAfter(x, c, s, g, w) == g.calls
  {}

  /** How a step has ended: submitted, traded or stopped, each exactly when it should. */
  ghost predicate Ended(x: StepInput, c: Guards, s: KernelState, g: Shared, w: Worker, r: StepResult) {
    && (r.Trade? || (r.NoTrade? && r.reason.ExecutorRefused?) <==> Reaches(x, c, s))
    && (r.Trade? <==> Requests(x, c, s, g, w) && !Executor.NeverLeft(x.answer.placed) && x.answer.placed != Refusal)
    && (r.NoTrade? ==> StopsFor(r.reason, x, c, s, g, w))
  }

  /** The requests made, with this step's. */
  ghost function CallsAfter(x: StepInput, c: Guards, s: KernelState, g: Shared, w: Worker): seq<ExecutorSteps.Call> {
    g.calls + if Requests(x, c, s, g, w) then [ExecutorSteps.Call(OrderFor(x), PermitFor(x.gate), w)] else []
  }

  // ----- the money of a step -----

  /** Releasing a fresh reservation, once or after the executor already did, puts every balance back. */
  lemma AbortRestores(s: Money.State, x: RiskGate.Input, again: bool)
    requires Money.Coupled(s) && Reserved(s, x).1.Ok?
    ensures var s1 := Reserved(s, x).0;
            var s2 := if again then Executor.ReleaseEach(s1, [x.reservationId], Money.RejectedReason) else s1;
            var s3 := Money.Release(s2, x.reservationId, Money.CancelledReason).0;
            s3.balances == s.balances && Money.Coupled(s3)
  {
    var r := AuthorityRequest(KernelRequest(x));
    var s1 := Reserved(s, x).0;
    Money.ReserveCoupled(s, r);
    if again {
      Money.ReserveThenReleaseRestores(s, r, Money.RejectedReason, Money.CancelledReason);
      Money.ReleaseCoupled(s1, x.reservationId, Money.RejectedReason);
      Executor.ReleaseOne(s1, x.reservationId, Money.RejectedReason);
    } else {
      Money.ReserveThenReleaseRestores(s, r, Money.CancelledReason, Money.CancelledReason);
      Money.ReleaseCoupled(s1, x.reservationId, Money.CancelledReason);
    }
  }

  /** Whatever the executor refused for, and whether or not it released, the step's own release evens it out. */
  lemma RefusedRestores(s: Money.State, x: RiskGate.Input, o: Order, out: Outcome, now: int)
    requires Money.Coupled(s) && Reserved(s, x).1.Ok? && !out.Submitted?
    ensures var s2 := Executor.MoneyAfter(Reserved(s, x).0, o, PermitFor(x), out, now);
            var s3 := Money.Release(s2, x.reservationId, Money.CancelledReason).0;
            s3.balances == s.balances && Money.Coupled(s3)
  {
    AbortRestores(s, x, out.PermitRefused? && (out.code.NothingSent? || out.code.RefusedByVenue?));
  }

  /** A reservation the step did not give back: it may have been consumed, by a fill, but nothing of it released. */
  predicate Held(s: Money.State, id: Id) {
    && id in s.rows && s.rows[id].released == 0
    && !s.rows[id].status.Released? && !s.rows[id].status.Expired?
  }

  lemma ConsumeHolds(s: Money.State, id: Id, cash: int, now: int)
    requires Held(s, id)
    ensures Held(Money.Consume(s, id, cash, now).0, id)
  {}

  lemma ReservedHolds(s: Money.State, x: RiskGate.Input)
    requires Reserved(s, x).1.Ok?
    ensures Held(Reserved(s, x).0, x.reservationId)
  {}

  lemma SubmittedHolds(s: Money.State, x: RiskGate.Input, o: Order, r: OrderResult, state: Lifecycle, now: int)
    requires Reserved(s, x).1.Ok?
    ensures var s2 := Executor.MoneyAfter(Reserved(s, x).0, o, PermitFor(x), Submitted(r, state), now);
            Held(s2, x.reservationId) && (Money.Coupled(s) ==> Money.Coupled(s2))
  {
    var s1 := Reserved(s, x).0;
    var cash := CashNeededFor(r.filled, if r.average.Some? then r.average.value else o.price);
    ReservedHolds(s, x);
    ConsumeHolds(s1, x.reservationId, cash, now);
    Executor.ConsumeOne(s1, x.reservationId, cash, now);
    if Money.Coupled(s) {
      Money.ReserveCoupled(s, AuthorityRequest(KernelRequest(x)));
      Money.ConsumeCoupled(s1, x.reservationId, cash, now);
    }
  }

  // ----- giving reservations back -----

  /** `filter`: the ids that name something. */
  function Named(ids: seq<Id>): seq<Id> {
    if ids == [] then []
    else Named(ids[..|ids| - 1]) + if ids[|ids| - 1] != "" then [ids[|ids| - 1]] else []
  }

  /** What is given back for a permit: its reservations, or without any its cash, through the kernel. */
  function GivenBack(s: Money.State, funder: string, p: Permit): Money.State {
    var ids := Named(p.reservationIds);
    if ids != [] then Executor.ReleaseEach(s, ids, Money.CancelledReason)
    else if p.maxCash > 0 then Money.KernelRelease(s, Money.Key(funder, Money.PUSD), p.maxCash)
    else s
  }

  /** A release of this row is refused. */
  predicate Closed(s: Money.State, id: Id) {
    id in s.rows ==> !s.rows[id].Live() || s.rows[id].amount - s.rows[id].consumed - s.rows[id].released < 0
  }

  lemma {:induction false} ReleaseCloses(s: Money.State, id: Id, other: Id, reason: Money.Reason)
    ensures Closed(Money.Release(s, id, reason).0, id)
    ensures Closed(s, other) ==> Closed(Money.Release(s, id, reason).0, other)
    ensures Closed(s, id) ==> Money.Release(s, id, reason).0 == s
  {}

  lemma {:induction false} ReleaseEachCloses(s: Money.State, ids: seq<Id>, id: Id, reason: Money.Reason)
    requires id in ids || Closed(s, id)
    ensures Closed(Executor.ReleaseEach(s, ids, reason), id)
    decreases |ids|
  {
    if ids != [] {
      var n := |ids| - 1;
      var s1 := Executor.ReleaseEach(s, ids[..n], reason);
      ReleaseCloses(s1, ids[n], id, reason);
      if ids[n] != id { ReleaseEachCloses(s, ids[..n], id, reason); }
    }
  }

  lemma {:induction false} ClosedStay(s: Money.State, ids: seq<Id>, reason: Money.Reason)
    requires forall i :: 0 <= i < |ids| ==> Closed(s, ids[i])
    ensures Executor.ReleaseEach(s, ids, reason) == s
    decreases |ids|
  {
    if ids != [] {
      var n := |ids| - 1;
      ClosedStay(s, ids[..n], reason);
      ReleaseCloses(s, ids[n], ids[n], reason);
    }
  }

  /** Giving the reservations of a permit back a second time changes nothing, whatever state the rows were in. */
  lemma {:induction false} GiveBackOnce(s: Money.State, ids: seq<Id>, reason: Money.Reason, again: Money.Reason)
    ensures var s' := Executor.ReleaseEach(s, ids, reason); Executor.ReleaseEach(s', ids, again) == s'
  {
    var s' := Executor.ReleaseEach(s, ids, reason);
    forall i | 0 <= i < |ids| ensures Closed(s', ids[i]) { ReleaseEachCloses(s, ids, ids[i], reason); }
    ClosedStay(s', ids, again);
  }

  /** A minted permit names one reservation, and that is what is given back. */
  lemma {:induction false} MintedGivenBack(s: Money.State, x: RiskGate.Input)
    ensures GivenBack(s, x.funder, PermitFor(x)) == Money.Release(s, x.reservationId, Money.CancelledReason).0
  {
    var ids := PermitFor(x).reservationIds;
    assert ids[..0] == [] && Named([]) == [];
    assert Named(ids) == [x.reservationId];
    Executor.ReleaseOne(s, x.reservationId, Money.CancelledReason);
  }

  // ----- the exposure of a step -----

  lemma UsdMonotone(a: int, b: int)
    requires a <= b
    ensures Usd(a) <= Usd(b) && (0 <= a ==> 0.0 <= Usd(a))
  {}

  lemma FillWithin(o: Order, r: OrderResult)
    requires ExecutorFills.WithinTerms(r, o.size, o.price) && FillOf(o, r).Some?
    ensures FillOf(o, r).value.size <= Usd(o.size) && FillOf(o, r).value.price <= Usd(o.price)
  {
    UsdMonotone(r.filled, o.size);
    if r.average.Some? { UsdMonotone(r.average.value, o.price); }
  }

  /** A venue that fills within size and limit never makes a step book more than it checked. */
  lemma BookedAtMostNotional(x: RiskGate.Input, o: Order, result: Option<OrderResult>)
    requires o.size <= x.size && o.price == x.price
    requires result.Some? ==> ExecutorFills.WithinTerms(result.value, o.size, o.price)
    ensures 0.0 <= BookedFor(o, result) <= StepNotional(x)
  {
    var fill := if result.Some? then FillOf(o, result.value) else None;
    if fill.Some? { FillWithin(o, result.value); }
    UsdMonotone(0, o.size);
    UsdMonotone(0, o.price);
    UsdMonotone(o.size, x.size);
    NotionalBounds(Usd(o.size), Usd(x.size), Usd(o.price), fill);
  }

  lemma NotionalBounds(size: real, requested: real, price: real, fill: Option<Fill>)
    requires 0.0 <= size <= requested && 0.0 <= price
    requires fill.Some? ==> fill.value.size <= size && fill.value.price <= price
    ensures 0.0 <= SubmitExposure(size, price, fill) <= requested * price
  {
    ExposureAtMostNotional(size, price, fill);
    TimesMonotone(size, requested, price);
  }

  /**
   What is booked for a report on the order, in dollars: the order at its limit, less what the fill saved below it. Without
   an average the venue can have meant, the fill counts at the limit and saves nothing; a fill beyond the order's size
   is booked as it is.
   */
  ghost predicate Books(o: Order, result: Option<OrderResult>, usd: real) {
    match result
    case None => usd == Usd(o.size) * Usd(o.price)
    case Some(r) =>
      var price := match r.average case None => o.price case Some(average) => if average == 0 || average > 1_000_000 then o.price else average;
      usd == LessSaved(Usd(o.size), Usd(o.price), Usd(r.filled), Usd(price))
  }

  ghost function LessSaved(size: real, limit: real, filled: real, price: real): real {
    if filled <= size then size * limit - filled * (limit - price) else filled * price
  }

  /** The fill took nothing below the limit. */
  predicate AtLimit(o: Order, result: Option<OrderResult>) {
    result.None? || result.value.filled == 0 || result.value.average.None?
    || result.value.average.value == 0 || result.value.average.value == o.price
  }

  ghost predicate FillLaw(size: real, limit: real, filled: real, price: real, usd: real) {
    && usd >= 0.0
    && usd == LessSaved(size, limit, filled, price)
    && (filled <= size ==> (usd == size * limit <==> price == limit))
  }

  lemma {:induction false} FillBooks(size: real, limit: real, filled: real, price: real)
    requires 0.0 < size && 0.0 < limit <= 1.0 && 0.0 < filled && 0.0 < price <= 1.0
    ensures FillLaw(size, limit, filled, price, SubmitExposure(size, limit, Some(Fill(filled, price))))
  {
    TimesMonotone(0.0, filled, price);
    NothingSaved(filled, limit, price);
    if filled <= size {
      TimesMonotone(0.0, size - filled, limit);
      assert limit * (size - filled) == size * limit - filled * limit;
    }
  }

  /** The price a fill is booked at: the venue's average when it is usable, else the limit. */
  function BookedPrice(o: Order, r: OrderResult): int {
    if r.average.Some? && 0 < r.average.value <= UNIT then r.average.value else o.price
  }

  lemma {:induction false} BookedAt(o: Order, r: OrderResult)
    requires o.size > 0 && 0 < o.price <= UNIT && r.filled > 0
    ensures 0.0 < Usd(o.size) && 0.0 < Usd(o.price) <= 1.0 && 0.0 < Usd(r.filled) && 0.0 < Usd(BookedPrice(o, r)) <= 1.0
    ensures BookedFor(o, Some(r)) == SubmitExposure(Usd(o.size), Usd(o.price), Some(Fill(Usd(r.filled), Usd(BookedPrice(o, r)))))
    ensures Usd(r.filled) <= Usd(o.size) <==> r.filled <= o.size
    ensures Usd(BookedPrice(o, r)) == Usd(o.price) <==> BookedPrice(o, r) == o.price
  {}

  /** The law of the booking, on the venue's report; for a fill within size and limit the whole notional exactly when nothing was saved. */
  lemma {:induction false} BookedLaw(o: Order, result: Option<OrderResult>)
    requires o.size > 0 && 0 < o.price <= UNIT
    ensures Books(o, result, BookedFor(o, result)) && BookedFor(o, result) >= 0.0
    ensures (result.Some? ==> ExecutorFills.WithinTerms(result.value, o.size, o.price)) ==>
              (BookedFor(o, result) == Usd(o.size) * Usd(o.price) <==> AtLimit(o, result))
  {
    if result.Some? && result.value.filled > 0 {
      FilledBooks(o, result.value);
      if ExecutorFills.WithinTerms(result.value, o.size, o.price) { FilledIsNotionalIff(o, result.value); }
    } else {
      UnfilledBooks(o, result);
    }
  }

  lemma {:induction false} FilledBooks(o: Order, r: OrderResult)
    requires o.size > 0 && 0 < o.price <= UNIT && r.filled > 0
    ensures Books(o, Some(r), BookedFor(o, Some(r))) && BookedFor(o, Some(r)) >= 0.0
  {
    BookedAt(o, r);
    FillBooks(Usd(o.size), Usd(o.price), Usd(r.filled), Usd(BookedPrice(o, r)));
  }

  lemma {:induction false} FilledIsNotionalIff(o: Order, r: OrderResult)
    requires o.size > 0 && 0 < o.price <= UNIT && r.filled > 0 && ExecutorFills.WithinTerms(r, o.size, o.price)
    ensures BookedFor(o, Some(r)) == Usd(o.size) * Usd(o.price) <==> AtLimit(o, Some(r))
  {
    BookedAt(o, r);
    FillBooks(Usd(o.size), Usd(o.price), Usd(r.filled), Usd(BookedPrice(o, r)));
  }

  lemma {:induction false} UnfilledBooks(o: Order, result: Option<OrderResult>)
    requires o.size > 0 && 0 < o.price <= UNIT && (result.Some? ==> result.value.filled == 0)
    ensures BookedFor(o, result) == Usd(o.size) * Usd(o.price) >= 0.0
    ensures Books(o, result, BookedFor(o, result))
  {
    TimesMonotone(0.0, Usd(o.size), Usd(o.price));
    assert 0.0 <= Usd(o.size);
  }

  lemma {:induction false} NothingSaved(filled: real, limit: real, price: real)
    requires filled > 0.0
    ensures filled * (limit - price) == 0.0 <==> price == limit
  {}

  class Core {
    const kernel: Kernel
    const executor: Executor.Executor
    /** Absent when not configured, or not a finite number. */
    const capUsd: Option<real>
    const lossCap: Option<real>
    const guardWired: bool

    /** Kernel, reservation manager and executor work on the same tables. */
    predicate Wired() { executor.bank == kernel.store }

    constructor (kernel: Kernel, executor: Executor.Executor, capUsd: Option<real>, lossCap: Option<real>, guardWired: bool)
      ensures this.kernel == kernel && this.executor == executor
      ensures this.capUsd == capUsd && this.lossCap == lossCap && this.guardWired == guardWired
    {
      this.kernel, this.executor := kernel, executor;
      this.capUsd, this.lossCap, this.guardWired := capUsd, lossCap, guardWired;
    }

    /** `releaseUnsubmittedReservation`, wired to the reservation manager; without an id to release, through the kernel. */
    method ReleaseUnsubmitted(funder: string, p: Permit)
      modifies kernel, kernel.store
      ensures kernel.store.View() == GivenBack(old(kernel.store.View()), funder, p)
    {
      var ids := [];
      for i := 0 to |p.reservationIds|
        invariant ids == Named(p.reservationIds[..i])
      {
        assert p.reservationIds[..i + 1][..i] == p.reservationIds[..i];
        if p.reservationIds[i] != "" { ids := ids + [p.reservationIds[i]]; }
      }
      assert p.reservationIds[..|p.reservationIds|] == p.reservationIds;
      if |ids| > 0 {
        for i := 0 to |ids|
          invariant kernel.store.View() == Executor.ReleaseEach(old(kernel.store.View()), ids[..i], Money.CancelledReason)
        {
          assert ids[..i + 1][..i] == ids[..i];
          var _ := kernel.store.Release(ids[i], Money.CancelledReason);
        }
        assert ids[..|ids|] == ids;
      } else if p.maxCash > 0 {
        kernel.Release(Money.Key(funder, Money.PUSD), p.maxCash);
      }
    }

    function Config(): Guards { Guards(capUsd, lossCap, guardWired) }

    /** The last refusals before the venue: the exposure cap, then the loss guard. */
    method CheckLimits(x: StepInput, o: Order) returns (refusal: Option<Reason>)
      ensures o.price == x.gate.price ==> (refusal.None? <==> Cleared(x, Config()))
      ensures refusal.Some? ==>
                match refusal.value
                case CapUnconfigured => capUsd.None? || capUsd.value <= 0.0
                case CapExceeded => capUsd.Some? && capUsd.value < x.exposure + Usd(x.gate.size) * Usd(o.price)
                case LossCapUnconfigured => lossCap.None? || lossCap.value <= 0.0
                case GuardUnwired => !guardWired
                case LossLatched => x.latched
                case _ => false
    {
      if capUsd.None? || capUsd.value <= 0.0 { return Some(CapUnconfigured); }
      var notional := Usd(x.gate.size) * Usd(o.price);
      if x.exposure + notional > capUsd.value { return Some(CapExceeded); }
      if lossCap.None? || lossCap.value <= 0.0 { return Some(LossCapUnconfigured); }
      if !guardWired { return Some(GuardUnwired); }
      if x.latched { return Some(LossLatched); }
      return None;
    }

    /** Build and sign the order, then the last refusals before the venue. Nothing is changed yet. */
    method Prepare(x: StepInput, p: Permit, ghost s: KernelState, ghost g: Shared) returns (o: Option<Order>, reason: Reason)
      ensures Bears(p, x.gate) && p.maxCash > 0 && Admits(x.gate) ==>
                && (o.Some? <==> x.signing == Signs && Cleared(x, Config()))
                && (o.Some? ==> o.value == OrderFor(x))
                && (o.None? ==> StopsFor(reason, x, Config(), s, g, executor.worker))
      ensures o.None? ==> !reason.NoEntry? && !reason.SizedToZero? && !reason.Gated? && !reason.ExecutorRefused?
    {
      if Bears(p, x.gate) && p.maxCash > 0 && Admits(x.gate) { StepBuilds(x, p); }
      var built := BuildSignedOrder(IntentFor(x.gate), p, x.orderId, x.signing.Signs?);
      if x.signing.FailsToSign? && built.NotBuilt? && built.code.SignRefused? { return None, SignFailed; }
      if built.NotBuilt? { return None, BuildRefused(built.code); }
      var refusal := CheckLimits(x, built.order);
      if refusal.Some? { return None, refusal.value; }
      return Some(built.order), NoEntry;
    }

    /** What a trading step has done: one request, within permit and cap, and the reservation still held. */
    ghost predicate Traded(x: StepInput, r: StepResult, s0: Money.State)
      requires r.Trade?
      reads kernel, kernel.store
    {
      && r.permit == PermitFor(x.gate) && Bears(r.permit, x.gate) && r.order == OrderFor(x)
      && r.result == (if x.answer.placed.Acked? then Some(x.answer.placed.result) else None)
      && r.booked == BookedFor(r.order, r.result) && Books(r.order, r.result, r.booked) && r.booked >= 0.0
      && Held(kernel.store.View(), x.gate.reservationId)
      && (r.result.None? ==> kernel.store.View() == Reserved(s0, x.gate).0)
    }

    /** `abortReserved`. */
    method Abort(x: StepInput, p: Permit, ghost s0: Money.State)
      requires Reserved(s0, x.gate).1.Ok? && p == PermitFor(x.gate) && kernel.store.View() == Reserved(s0, x.gate).0
      modifies kernel, kernel.store
      ensures Money.Coupled(s0) ==> kernel.store.Valid() && kernel.store.balances == s0.balances
    {
      if Money.Coupled(s0) { AbortRestores(s0, x.gate, false); }
      MintedGivenBack(kernel.store.View(), x.gate);
      ReleaseUnsubmitted(x.gate.funder, p);
    }

    /** From a granted reservation on: submit, or give it back. `g` is what the executor had before the reservation. */
    method Enter(x: StepInput, p: Permit, ghost s0: KernelState, ghost g: Shared) returns (r: StepResult)
      requires Wired() && Reserved(s0.money, x.gate).1.Ok? && p == PermitFor(x.gate)
      requires Bears(p, x.gate) && p.maxCash > 0
      requires x.entry && x.gate.size > 0 && Admits(x.gate) && Reserving(s0, KernelRequest(x.gate), x.gate.conflicts).1.Granted?
      requires kernel.store.View() == Reserved(s0.money, x.gate).0 && executor.View() == g.(money := kernel.store.View())
      modifies kernel, kernel.store, executor
      ensures Money.Coupled(s0.money) ==> kernel.store.Valid()
      ensures Money.Coupled(s0.money) && !r.Trade? ==> kernel.store.balances == s0.money.balances
      ensures r.Trade? ==> Traded(x, r, s0.money)
      ensures !r.Threw? && (r.NoTrade? ==> !r.reason.NoEntry? && !r.reason.SizedToZero? && !r.reason.Gated?)
      ensures Ended(x, Config(), s0, g, executor.worker, r) && executor.calls == CallsAfter(x, Config(), s0, g, executor.worker)
    {
      var o, reason := Prepare(x, p, s0, g);
      if o.None? {
        StopEndsStep(x, Config(), s0, g, executor.worker, reason);
        Abort(x, p, s0.money);
        return NoTrade(reason);
      }
      r := SubmitBuilt(x, p, o.value, s0.money, g);
      SubmitEndsStep(x, Config(), s0, g, executor.worker, r);
    }

    /** The submit, and the release when it is refused. */
    method SubmitBuilt(x: StepInput, p: Permit, o: Order, ghost s0: Money.State, ghost g: Shared) returns (r: StepResult)
      requires Wired() && Reserved(s0, x.gate).1.Ok? && p == PermitFor(x.gate) && Bears(p, x.gate) && o == OrderFor(x)
      requires Admits(x.gate) && p.maxCash > 0
      requires kernel.store.View() == Reserved(s0, x.gate).0 && executor.View() == g.(money := kernel.store.View())
      modifies kernel, kernel.store, executor
      ensures Money.Coupled(s0) ==> kernel.store.Valid()
      ensures Money.Coupled(s0) && !r.Trade? ==> kernel.store.balances == s0.balances
      ensures SubmitEnds(x, g, executor.worker, o, p, r)
      ensures executor.calls == g.calls + if Executor.Goes(g, executor.worker, o, p, x.answer) then [ExecutorSteps.Call(o, p, executor.worker)] else []
      ensures r.Trade? ==> Traded(x, r, s0)
    {
      CashBounds(o.size, o.price);
      assert o.price > 0;
      BookedLaw(o, if x.answer.placed.Acked? then Some(x.answer.placed.result) else None);
      var outcome := SubmitFor(x, o, p, g);
      if outcome.Submitted? {
        SubmittedHolds(s0, x.gate, o, outcome.result, outcome.state, x.answer.bankNow);
        return Trade(o, p, Some(outcome.result), BookedFor(o, Some(outcome.result)));
      }
      if outcome.NeedsReconciliation? {
        if Money.Coupled(s0) { Money.ReserveCoupled(s0, AuthorityRequest(KernelRequest(x.gate))); }
        return Trade(o, p, None, BookedFor(o, None));
      }
      if Money.Coupled(s0) { RefusedRestores(s0, x.gate, o, outcome, x.answer.bankNow); }
      MintedGivenBack(kernel.store.View(), x.gate);
      ReleaseUnsubmitted(x.gate.funder, p);
      return NoTrade(ExecutorRefused(outcome));
    }

    /** The executor's verdict, and what it leaves of the money and the requests. */
    method SubmitFor(x: StepInput, o: Order, p: Permit, ghost g: Shared) returns (outcome: Outcome)
      requires executor.View() == g.(money := executor.bank.View())
      modifies executor, executor.bank
      ensures var goes := Executor.Goes(g, executor.worker, o, p, x.answer);
              && (outcome.Submitted? <==> goes && x.answer.placed.Acked?)
              && (outcome.Submitted? ==> outcome.result == x.answer.placed.result)
              && (outcome.NeedsReconciliation? <==> goes && Executor.Open(x.answer.placed))
              && executor.calls == g.calls + if goes then [ExecutorSteps.Call(o, p, executor.worker)] else []
      ensures RefusedBy(outcome, x, g, executor.worker, o, p)
      ensures executor.bank.View() == Executor.MoneyAfter(old(executor.bank.View()), o, p, outcome, x.answer.bankNow)
    {
      outcome := executor.Submit(o, p, x.answer);
    }

    /**
     `executeG4Step`. Exactly when the step hands its order to the executor, when the venue hears of it and when it
     trades; every request is the one limit order on the input's market and side. Release-or-submit: a step that does not
     trade leaves every balance as it found it, whatever it stopped at; a step that trades has not released its
     reservation. An exception of the gate comes before anything is reserved.
     */
    method ExecuteStep(x: StepInput) returns (r: StepResult)
      requires Wired()
      modifies kernel, kernel.store, executor
      ensures old(kernel.store.Valid()) ==> kernel.store.Valid()
      ensures old(kernel.store.Valid()) && !r.Trade? ==> kernel.store.balances == old(kernel.store.balances)
      ensures (r.NoTrade? && (r.reason.NoEntry? || r.reason.SizedToZero? || r.reason.Gated?)) || r.Threw? ==>
                kernel.View() == old(kernel.View()) && executor.calls == old(executor.calls)
      ensures r.Threw? <==> x.entry && x.gate.size > 0 && !Converts(x.gate)
      ensures r.Trade? ==> Traded(x, r, old(kernel.store.View()))
      ensures Ended(x, Config(), old(kernel.View()), old(executor.View()), executor.worker, r)
      ensures executor.calls == CallsAfter(x, Config(), old(kernel.View()), old(executor.View()), executor.worker)
    {
      ghost var s0, g := kernel.View(), executor.View();
      if !x.entry { return NoTrade(NoEntry); }
      if x.gate.size == 0 { return NoTrade(SizedToZero); }
      var gated := ValidateAndReserve(kernel, x.gate);
      match gated {
        case Threw => return StepResult.Threw;
        case Refused(code) =>
          GrantedIff(s0, KernelRequest(x.gate), x.gate.conflicts);
          return NoTrade(Gated(code));
        case Permitted(permit) => r := Enter(x, permit, s0, g);
      }
    }
  }

  /** A step's intent always fits the permit that was minted for it, as a whole. */
  lemma {:induction false} StepBuilds(x: StepInput, p: Permit)
    requires Bears(p, x.gate) && p.maxCash > 0 && Admits(x.gate)
    ensures var i := IntentFor(x.gate);
            && HasRoom(i, p, x.gate.price, x.gate.size)
            && (forall price: nat, size: nat :: Asks(i, price, size) <==> price == x.gate.price && size == x.gate.size)
            && (forall signed: bool :: CanBuild(i, p, signed) <==> signed)
            && (forall size: nat :: Clamped(size, x.gate.size, x.gate.price, p.maxQty, p.maxCash) ==> size == x.gate.size)
  {
    assert Asks(IntentFor(x.gate), x.gate.price, x.gate.size);
  }
}
