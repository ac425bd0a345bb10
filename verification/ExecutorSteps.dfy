/**
 The executor: submit, reconcile and cancel as a machine whose steps are what happens between
 two awaits.

 Every durable table is shared by all tasks; each task keeps only its own program counter. What
 the outside world answers (the clocks, the venue, its mode) is an arbitrary `Answer`, new at every step. A
 process that dies is a task that is never advanced again, and a restart replaces the in-process
 log of seen orders by any other one.
 */
module ExecutorSteps {
  import opened Wrappers
  import opened BigInt
  import Money

  type Id = string

  // ----- orders, permits, answers -----

  datatype Side = Buy | Sell
  datatype Style = Limit | PostOnly | Fok | Ioc
  datatype VenueMode = Normal | PostOnlyMode | CancelOnly | ReadOnly | Unavailable | UnknownMode

  /** A signed order in base units, which a decimal conversion never makes negative; `permitId` is empty when the order carries none. */
  datatype Order = Order(
    id: Id, market: string, side: Side, size: nat, price: nat, permitId: Id, style: Option<Style>)

  /** `formatted` stands for the checks of the permit schema that are not written out: its text formats. */
  datatype Permit = Permit(
    id: Id, leaseEpoch: int, reservationIds: seq<Id>, maxQty: nat, maxCash: nat,
    market: string, side: Option<Side>, priceMin: Option<int>, priceMax: Option<int>,
    styles: seq<Style>, expiresAt: int, singleUse: bool, usedAlready: bool, formatted: bool)

  datatype Lifecycle =
    | NotSeen | Submitting | Acknowledged | SubmissionUnknown | DefinitiveReject | CancelUnknown

  datatype SubmitStatus = SubmittingStatus | AcknowledgedStatus | UnknownStatus | RejectedStatus
  datatype OrderStatus = Live | Partial | Matched | Canceled | Expired | Rejected | Indeterminate

  /** `filled` is 0 when the venue reports none. */
  datatype OrderResult = OrderResult(
    submitStatus: Option<SubmitStatus>, orderStatus: Option<OrderStatus>, filled: nat, average: Option<nat>)

  /** What the adapter's error text mentions. */
  datatype ErrorText = ErrorText(timeoutOrReset: bool, connectFailure: bool)

  datatype PlaceAnswer =
    | NotSent(reason: Option<ErrorText>)
    | OutcomeUnknown
    | Refusal
    | Acked(result: OrderResult)

  datatype StatusAnswer = NoRecord | Unreachable | Found(result: OrderResult)

  /**
   `dbNow`, `now` and `bankNow` are the database's, the executor's and the reservation manager's clock.
   */
  datatype Answer = Answer(
    dbNow: int, now: int, bankNow: int, mode: VenueMode,
    placed: PlaceAnswer, status: StatusAnswer, cancelled: bool)

  // ----- pure decisions -----

  predicate ProvedNothingSent(reason: Option<ErrorText>) {
    reason.Some? && !reason.value.timeoutOrReset && reason.value.connectFailure
  }

  function LifecycleNext(submit: SubmitStatus): Lifecycle {
    match submit
    case AcknowledgedStatus => Acknowledged
    case SubmittingStatus => Submitting
    case UnknownStatus => SubmissionUnknown
    case RejectedStatus => DefinitiveReject
  }

  predicate MaySubmit(mode: VenueMode) { mode.Normal? || mode.PostOnlyMode? }

  predicate MayCancel(mode: VenueMode) { mode.Normal? || mode.PostOnlyMode? || mode.CancelOnly? }

  predicate WellFormed(p: Permit) {
    && p.formatted && p.leaseEpoch >= 0
    && (p.priceMin.Some? ==> p.priceMin.value >= 0) && (p.priceMax.Some? ==> p.priceMax.value >= 0)
  }

  predicate CoversOrder(o: Order, p: Permit) {
    o.size <= p.maxQty && CashNeededFor(o.size, o.price) <= p.maxCash
  }

  /** What a permit authorises. */
  predicate Allows(p: Permit, o: Order) {
    && (o.permitId != "" ==> o.permitId == p.id)
    && (p.side.Some? ==> o.side == p.side.value)
    && (p.market != "" ==> o.market == p.market)
    && (o.style.Some? && p.styles != [] ==> o.style.value in p.styles)
    && CoversOrder(o, p)
    && (p.priceMin.Some? ==> p.priceMin.value <= o.price)
    && (p.priceMax.Some? ==> o.price <= p.priceMax.value)
  }

  datatype Code =
    | LeaseNotAcquired | PermitReused | LeaseEpochMismatch | PermitInvalid | PermitExpired
    | PermitMismatch | SideMismatch | MarketMismatch | StyleNotAllowed | AmountExceedsPermit
    | PriceBelowMin | PriceAboveMax | ModeForbids | PermitUsed | AtomicClaimFailed | NothingSent | RefusedByVenue

  /** The permit and the order as a submit demands them, field by field; a permit leaves open what it does not name. */
  predicate Suits(o: Order, p: Permit, a: Answer) {
    && p.formatted && 0 <= p.leaseEpoch
    && (p.priceMin == None || 0 <= p.priceMin.value <= o.price)
    && (p.priceMax == None || (0 <= p.priceMax.value && o.price <= p.priceMax.value))
    && a.now <= p.expiresAt
    && (o.permitId == "" || o.permitId == p.id)
    && (p.side == None || p.side == Some(o.side)) && (p.market == "" || p.market == o.market)
    && (o.style == None || p.styles == [] || o.style.value in p.styles)
    && o.size <= p.maxQty && CashNeededFor(o.size, o.price) <= p.maxCash
    && (a.mode == Normal || a.mode == PostOnlyMode)
  }

  /** What each of these refusals says is so. */
  predicate Fault(code: Code, o: Order, p: Permit, a: Answer) {
    match code
    case PermitInvalid =>
      !p.formatted || p.leaseEpoch < 0 || (p.priceMin.Some? && p.priceMin.value < 0) || (p.priceMax.Some? && p.priceMax.value < 0)
    case PermitExpired => p.expiresAt < a.now
    case PermitMismatch => o.permitId != "" && o.permitId != p.id
    case SideMismatch => p.side == Some(if o.side == Buy then Sell else Buy)
    case MarketMismatch => p.market != "" && p.market != o.market
    case StyleNotAllowed => o.style.Some? && p.styles != [] && o.style.value !in p.styles
    case AmountExceedsPermit => p.maxQty < o.size || p.maxCash < CashNeededFor(o.size, o.price)
    case PriceBelowMin => p.priceMin.Some? && o.price < p.priceMin.value
    case PriceAboveMax => p.priceMax.Some? && p.priceMax.value < o.price
    case ModeForbids => a.mode != Normal && a.mode != PostOnlyMode
    case _ => false
  }

  /** The checks between the second claim check and the second save, in order. */
  function CheckOrder(o: Order, p: Permit, a: Answer): (refusal: Option<Code>)
    ensures refusal.None? <==> Suits(o, p, a)
    ensures refusal.Some? ==> Fault(refusal.value, o, p, a)
    ensures refusal.None? <==> WellFormed(p) && a.now <= p.expiresAt && Allows(p, o) && MaySubmit(a.mode)
  {
    if !WellFormed(p) then Some(PermitInvalid)
    else if a.now > p.expiresAt then Some(PermitExpired)
    else if o.permitId != "" && o.permitId != p.id then Some(PermitMismatch)
    else if p.side.Some? && o.side != p.side.value then Some(SideMismatch)
    else if p.market != "" && o.market != p.market then Some(MarketMismatch)
    else if o.style.Some? && |p.styles| > 0 && o.style.value !in p.styles then Some(StyleNotAllowed)
    else if !CoversOrder(o, p) then Some(AmountExceedsPermit)
    else if p.priceMin.Some? && o.price < p.priceMin.value then Some(PriceBelowMin)
    else if p.priceMax.Some? && o.price > p.priceMax.value then Some(PriceAboveMax)
    else if !MaySubmit(a.mode) then Some(ModeForbids)
    else None
  }

  // ----- the shared tables -----

  datatype Lease = Lease(holder: string, epoch: int, expiresAt: int)

  datatype PermitRow = PermitRow(permit: Permit, used: bool, claimedBy: Option<Id>)

  datatype LedgerRow = LedgerRow(
    permitId: Id, state: Lifecycle, resolved: bool, fillShares: int, fillCash: int)

  datatype Worker = Worker(holder: string, epoch: int)

  /** One `placeOrder` request. */
  datatype Call = Call(order: Order, permit: Permit, worker: Worker)

  /**
   The tables, and what the venue has been asked: to place, to report on, to cancel. A ledger row refers to
   a row of `orders`, a table these operations never write.
   */
  datatype Shared = Shared(
    lease: Option<Lease>, seen: map<Id, Lifecycle>, orders: set<Id>, permits: map<Id, PermitRow>,
    ledger: map<Id, LedgerRow>, calls: seq<Call>, queries: seq<Id>, cancels: seq<Id>, money: Money.State)

  const LEASE_TTL := 30

  predicate CanLease(g: Shared, w: Worker, dbNow: int) {
    g.lease.None? || g.lease.value.epoch < w.epoch || g.lease.value.expiresAt < dbNow
  }

  function Leased(g: Shared, w: Worker, dbNow: int): Shared {
    g.(lease := Some(Lease(w.holder, w.epoch, dbNow + LEASE_TTL)))
  }

  /** Any task of the same holder gives the lease up, whichever task took it. */
  function Unleased(g: Shared, w: Worker): Shared {
    if g.lease.Some? && g.lease.value.holder == w.holder then g.(lease := None) else g
  }

  /** `save`: inserted if absent, never overwritten. */
  function Saved(permits: map<Id, PermitRow>, p: Permit): map<Id, PermitRow> {
    if p.id in permits then permits else permits[p.id := PermitRow(p, p.usedAlready, None)]
  }

  predicate IsClaimed(g: Shared, permitId: Id) { permitId in g.permits && g.permits[permitId].used }

  predicate Claimable(g: Shared, permitId: Id, dbNow: int) {
    permitId in g.permits && !g.permits[permitId].used && g.permits[permitId].permit.expiresAt > dbNow
  }

  /** The ledger upsert: an existing row keeps its counters and its resolved flag. */
  function Recorded(ledger: map<Id, LedgerRow>, orderId: Id, permitId: Id): map<Id, LedgerRow> {
    if orderId in ledger
    then ledger[orderId := ledger[orderId].(permitId := permitId, state := Submitting)]
    else ledger[orderId := LedgerRow(permitId, Submitting, false, 0, 0)]
  }

  /** `claimPermitAndRecordSubmission`, when the claim succeeds. */
  function Claimed(g: Shared, permitId: Id, orderId: Id): Shared
    requires permitId in g.permits
  {
    g.(permits := g.permits[permitId := g.permits[permitId].(used := true, claimedBy := Some(orderId))],
       ledger := Recorded(g.ledger, orderId, permitId))
  }

  function Resolved(row: LedgerRow, r: OrderResult): LedgerRow {
    if r.orderStatus == Some(Live) || r.orderStatus == Some(Partial) then
      if row.resolved then row else row.(state := Acknowledged)
    else
      var dead := r.orderStatus == Some(Canceled) || r.orderStatus == Some(Rejected) || r.orderStatus == Some(Expired);
      var acked := r.orderStatus == Some(Matched) || r.submitStatus == Some(AcknowledgedStatus);
      row.(state := if !dead && acked then Acknowledged else DefinitiveReject, resolved := true)
  }

  predicate NeedsReconcile(g: Shared, orderId: Id) { orderId in g.ledger && !g.ledger[orderId].resolved }

  /** `consumeFill`: the counters only rise; the rise in cash is what is still to be consumed. */
  function Counted(row: LedgerRow, shares: int, cash: int): (LedgerRow, int) {
    var newCash := Max(cash, row.fillCash);
    (row.(fillShares := Max(shares, row.fillShares), fillCash := newCash), newCash - row.fillCash)
  }

  // ----- tasks -----

  datatype Action =
    | Mark(state: Lifecycle)
    | Update(state: Lifecycle)
    | Resolve(result: OrderResult)
    | Free(reservation: Id, reason: Money.Reason)
    | Spend(reservation: Id, cash: int)
    | Seed(shares: int, cash: int)
    | Unlease

  datatype Settlement = Freeing(reason: Money.Reason) | Spending(cash: int)

  datatype Outcome =
    | Submitted(result: OrderResult, state: Lifecycle)
    | Duplicate
    | PermitRefused(code: Code)
    | NeedsReconciliation
    | State(state: Lifecycle)
    | CancelConfirmed | CancelRefused(code: Code) | CancelThrew | CancelFailed

  datatype Pc =
    | Acquire
    // submit
    | Dedupe | FirstClaimCheck | FirstSave | Validate | SecondClaimCheck | Checks | SecondSave | Claim
    | MarkSubmitting | RecordSubmitting | Place | Await
    // reconcile; `held` says whether this task holds the lease
    | ReadSeen(held: bool) | FirstNeed(held: bool, current: Lifecycle) | SecondNeed(held: bool, current: Lifecycle)
    | Query(held: bool, current: Lifecycle)
    // cancel
    | Gate | RecordCancel | SendCancel
    // settlement
    | Doing(todo: seq<Action>, next: Pc)
    | CountFill(shares: int, cash: int, next: Pc)
    | FindPermit(what: Settlement, next: Pc)
    | FindReservations(permitId: Id, what: Settlement, next: Pc)
    | Done(outcome: Outcome)

  datatype Job = SubmitJob(order: Order, permit: Permit) | ReconcileJob(orderId: Id) | CancelJob(orderId: Id)

  datatype Task = Task(job: Job, worker: Worker, pc: Pc)

  function JobOrder(job: Job): Id {
    match job
    case SubmitJob(order, _) => order.id
    case ReconcileJob(id) => id
    case CancelJob(id) => id
  }

  function Releases(ids: seq<Id>, reason: Money.Reason): seq<Action> {
    seq(|ids|, i requires 0 <= i < |ids| => Free(ids[i], reason))
  }

  function Spends(ids: seq<Id>, cash: int): seq<Action> {
    seq(|ids|, i requires 0 <= i < |ids| => Spend(ids[i], cash))
  }

  function MoneyActions(what: Settlement, ids: seq<Id>): seq<Action> {
    match what
    case Freeing(reason) => Releases(ids, reason)
    case Spending(cash) => Spends(ids, cash)
  }

  /** A refusal before the claim; some of them give the lease up before `finally` does so again. */
  function Refuse(outcome: Outcome, early: bool): Pc {
    Doing(if early then [Unlease, Unlease] else [Unlease], Done(outcome))
  }

  const REJECTED_RESULT := OrderResult(None, Some(Rejected), 0, None)
  const CANCELED_RESULT := OrderResult(None, Some(Canceled), 0, None)

  function FillActions(o: Order, p: Permit, r: OrderResult): seq<Action> {
    if r.filled == 0 then []
    else
      var cash := CashNeededFor(r.filled, if r.average.Some? then r.average.value else o.price);
      Spends(p.reservationIds, cash) + [Seed(r.filled, cash)]
  }

  function AckState(r: OrderResult): Lifecycle {
    LifecycleNext(if r.submitStatus.Some? then r.submitStatus.value else SubmittingStatus)
  }

  /** What is left to do once the venue has answered, or has failed to. */
  function AfterAnswer(o: Order, p: Permit, answer: PlaceAnswer): Pc {
    match answer
    case NotSent(reason) =>
      if ProvedNothingSent(reason) then
        Doing([Mark(DefinitiveReject), Update(DefinitiveReject), Resolve(REJECTED_RESULT)]
              + Releases(p.reservationIds, Money.RejectedReason) + [Unlease, Unlease],
              Done(PermitRefused(NothingSent)))
      else Doing([Unlease, Unlease], Done(NeedsReconciliation))
    case OutcomeUnknown =>
      Doing([Mark(SubmissionUnknown), Update(SubmissionUnknown), Unlease, Unlease], Done(NeedsReconciliation))
    case Refusal =>
      Doing([Update(DefinitiveReject), Unlease] + Releases(p.reservationIds, Money.RejectedReason) + [Unlease],
            Done(PermitRefused(RefusedByVenue)))
    case Acked(r) =>
      Doing([Update(AckState(r)), Mark(AckState(r)), Unlease, Resolve(r)] + FillActions(o, p, r) + [Unlease],
            Done(Submitted(r, AckState(r))))
  }

  // ----- steps -----

  function StepSubmit(g: Shared, w: Worker, o: Order, p: Permit, pc: Pc, a: Answer): (Shared, Pc) {
    match pc
    case Acquire =>
      if CanLease(g, w, a.dbNow) then (Leased(g, w, a.dbNow), Dedupe)
      else (g, Done(PermitRefused(LeaseNotAcquired)))
    case Dedupe =>
      if o.id in g.seen && !g.seen[o.id].DefinitiveReject? then (g, Refuse(Duplicate, true))
      else (g, if p.singleUse then FirstClaimCheck else FirstSave)
    case FirstClaimCheck =>
      (g, if IsClaimed(g, p.id) then Refuse(PermitRefused(PermitReused), false) else FirstSave)
    case FirstSave => (g.(permits := Saved(g.permits, p)), Validate)
    case Validate =>
      if p.id !in g.permits || g.permits[p.id].permit.leaseEpoch != w.epoch
      then (g, Refuse(PermitRefused(LeaseEpochMismatch), true))
      else (g, if p.singleUse then SecondClaimCheck else Checks)
    case SecondClaimCheck =>
      (g, if IsClaimed(g, p.id) then Refuse(PermitRefused(PermitReused), false) else Checks)
    case Checks =>
      (match CheckOrder(o, p, a)
       case None => (g, SecondSave)
       case Some(code) => (g, Refuse(PermitRefused(code), code.PermitMismatch? || code.ModeForbids?)))
    case SecondSave => (g.(permits := Saved(g.permits, p)), Claim)
    case Claim =>
      if !Claimable(g, p.id, a.dbNow) then (g, Refuse(PermitRefused(PermitUsed), true))
      else if o.id !in g.orders then (g, Refuse(PermitRefused(AtomicClaimFailed), true))
      else (Claimed(g, p.id, o.id), MarkSubmitting)
    case MarkSubmitting => (g.(seen := g.seen[o.id := Submitting]), RecordSubmitting)
    case RecordSubmitting => (g.(ledger := Recorded(g.ledger, o.id, p.id)), Place)
    case Place => (g.(calls := g.calls + [Call(o, p, w)]), Await)
    case Await => (g, AfterAnswer(o, p, a.placed))
    case _ => StepSettle(g, w, o.id, pc, a)
  }

  function IfHeld(held: bool): seq<Action> { if held then [Unlease] else [] }

  function AfterStatus(held: bool, current: Lifecycle, answer: StatusAnswer): Pc {
    match answer
    case NoRecord => Doing(IfHeld(held), Done(State(current)))
    case Unreachable => Doing(IfHeld(held), Done(State(SubmissionUnknown)))
    case Found(r) =>
      if r.orderStatus == Some(Canceled) || r.orderStatus == Some(Rejected) || r.orderStatus == Some(Expired) then
        Doing([Mark(DefinitiveReject), Resolve(r)],
              FindPermit(Freeing(if r.orderStatus == Some(Canceled) then Money.CancelledReason else Money.RejectedReason),
                         Doing(IfHeld(held), Done(State(DefinitiveReject)))))
      else if r.submitStatus == Some(AcknowledgedStatus) then
        var rest := Doing([Resolve(r)] + IfHeld(held), Done(State(Acknowledged)));
        Doing([Mark(Acknowledged)],
              if r.filled > 0 && r.average.Some? && r.average.value > 0
              then CountFill(r.filled, CashNeededFor(r.filled, r.average.value), rest) else rest)
      else Doing(IfHeld(held), Done(State(SubmissionUnknown)))
  }

  function StepReconcile(g: Shared, w: Worker, id: Id, pc: Pc, a: Answer): (Shared, Pc) {
    match pc
    case Acquire =>
      if CanLease(g, w, a.dbNow) then (Leased(g, w, a.dbNow), ReadSeen(true)) else (g, ReadSeen(false))
    case ReadSeen(held) => (g, FirstNeed(held, if id in g.seen then g.seen[id] else NotSeen))
    case FirstNeed(held, current) =>
      (g, if NeedsReconcile(g, id) then Query(held, current)
          else if current.SubmissionUnknown? then SecondNeed(held, current)
          else Doing(IfHeld(held), Done(State(current))))
    case SecondNeed(held, current) =>
      (g, if NeedsReconcile(g, id) then Query(held, current) else Doing(IfHeld(held), Done(State(current))))
    case Query(held, current) => (g.(queries := g.queries + [id]), AfterStatus(held, current, a.status))
    case _ => StepSettle(g, w, id, pc, a)
  }

  /**
   Recording a cancel request writes CANCEL_UNKNOWN into an unresolved row, and the check on that
   column admits no such state: the write is an exception, and the cancel ends there with its lease.
   A row that is absent or resolved is not written.
   */
  function StepCancel(g: Shared, w: Worker, id: Id, pc: Pc, a: Answer): (Shared, Pc) {
    match pc
    case Acquire =>
      if CanLease(g, w, a.dbNow) then (Leased(g, w, a.dbNow), Gate) else (g, Done(CancelRefused(LeaseNotAcquired)))
    case Gate => (g, if MayCancel(a.mode) then RecordCancel else Doing([Unlease], Done(CancelRefused(ModeForbids))))
    case RecordCancel =>
      (g, if NeedsReconcile(g, id) then Done(CancelThrew) else SendCancel)
    case SendCancel =>
      (g.(cancels := g.cancels + [id]),
          if a.cancelled
          then Doing([Resolve(CANCELED_RESULT)],
                     FindPermit(Freeing(Money.CancelledReason), Doing([Unlease], Done(CancelConfirmed))))
          else Doing([Unlease], Done(CancelFailed)))
    case _ => StepSettle(g, w, id, pc, a)
  }

  function Do(g: Shared, w: Worker, id: Id, action: Action, a: Answer): Shared {
    match action
    case Mark(state) => g.(seen := g.seen[id := state])
    case Update(state) =>
      if id in g.ledger then g.(ledger := g.ledger[id := g.ledger[id].(state := state)]) else g
    case Resolve(r) =>
      if id in g.ledger then g.(ledger := g.ledger[id := Resolved(g.ledger[id], r)]) else g
    case Free(rid, reason) => g.(money := Money.Release(g.money, rid, reason).0)
    case Spend(rid, cash) => g.(money := Money.Consume(g.money, rid, cash, a.bankNow).0)
    case Seed(shares, cash) =>
      if id in g.ledger then g.(ledger := g.ledger[id := Counted(g.ledger[id], shares, cash).0]) else g
    case Unlease => Unleased(g, w)
  }

  function StepSettle(g: Shared, w: Worker, id: Id, pc: Pc, a: Answer): (Shared, Pc) {
    match pc
    case Doing(todo, next) => if todo == [] then (g, next) else (Do(g, w, id, todo[0], a), Doing(todo[1..], next))
    case CountFill(shares, cash, next) =>
      if id !in g.ledger then (g, next)
      else
        var (row, delta) := Counted(g.ledger[id], shares, cash);
        (g.(ledger := g.ledger[id := row]), if delta > 0 then FindPermit(Spending(delta), next) else next)
    case FindPermit(what, next) =>
      (g, if id in g.ledger && g.ledger[id].permitId != "" then FindReservations(g.ledger[id].permitId, what, next) else next)
    case FindReservations(permitId, what, next) =>
      (g, if permitId in g.permits
          then Doing(MoneyActions(what, g.permits[permitId].permit.reservationIds), next) else next)
    case _ => (g, pc)
  }

  function Step(g: Shared, t: Task, a: Answer): (Shared, Task) {
    var (g', pc') :=
      match t.job
      case SubmitJob(order, permit) => StepSubmit(g, t.worker, order, permit, t.pc, a)
      case ReconcileJob(id) => StepReconcile(g, t.worker, id, t.pc, a)
      case CancelJob(id) => StepCancel(g, t.worker, id, t.pc, a);
    (g', t.(pc := pc'))
  }

  /** A task running with nothing else in between, for `n` steps under one answer. */
  function Solo(g: Shared, t: Task, a: Answer, n: nat): (Shared, Task) {
    if n == 0 then (g, t)
    else
      var (g', t') := Solo(g, t, a, n - 1);
      Step(g', t', a)
  }

  // ----- worlds and runs -----

  datatype World = World(g: Shared, tasks: seq<Task>)

  datatype Event =
    | Start(job: Job, worker: Worker)
    | Advance(task: nat, answer: Answer)
    /** A process starts with a seen log of its own. */
    | Restart(seen: map<Id, Lifecycle>)
    /** The money kernel stores a permit it issued. */
    | Issue(permit: Permit)
    /** Something other than the program records an order. */
    | ListOrder(order: Id)
    /** Any other transaction on the money tables. */
    | Bank(step: Money.Step)

  const BEGIN := World(Shared(None, map[], {}, map[], map[], [], [], [], Money.EMPTY), [])

  function Apply(w: World, e: Event): World {
    match e
    case Start(job, worker) => w.(tasks := w.tasks + [Task(job, worker, Acquire)])
    case Advance(i, a) =>
      if i >= |w.tasks| then w
      else
        var (g, t) := Step(w.g, w.tasks[i], a);
        World(g, w.tasks[i := t])
    case Restart(seen) => w.(g := w.g.(seen := seen))
    case Issue(p) => w.(g := w.g.(permits := Saved(w.g.permits, p)))
    case ListOrder(id) => w.(g := w.g.(orders := w.g.orders + {id}))
    case Bank(step) => w.(g := w.g.(money := Money.Apply(w.g.money, step)))
  }

  function Run(w: World, events: seq<Event>): World
    decreases |events|
  {
    if events == [] then w else Run(Apply(w, events[0]), events[1..])
  }
}
