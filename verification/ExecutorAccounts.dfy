/**
 Fill accounting in every interleaving. An order is settled on the reservations of the permits it was sent
 under; any number of submits, reconciles and cancels of it and of others run at once, stop anywhere, and
 restart. At every moment the cash consumed, plus what operations under way still mean to consume, less what
 they still mean to count, is the highest cash counted, plus what was counted too late, less what was
 refused, plus what was assigned to more than one of the reservations, or to none, or taken by others.
 */
module ExecutorAccounts {
  import opened Wrappers
  import opened BigInt
  import opened SeqSums
  import opened ExecutorSteps
  import opened ExecutorFills
  import Executor
  import ExecutorSafety
  import MapSums
  import Money

  /** The order, and the reservations its cash is looked for in. */
  datatype Account = Account(order: Id, reservations: set<Id>)

  // ----- the figures -----

  function Mine(k: Account, rows: map<Id, Money.Reservation>): map<Id, Money.Reservation> {
    map id | id in rows && id in k.reservations :: rows[id]
  }

  function Figure(): Money.Reservation -> int { (r: Money.Reservation) => r.consumed }

  /** The cash consumed, over all of the reservations. */
  ghost function Consumed(k: Account, m: Money.State): int { MapSums.Sum(Mine(k, m.rows), Figure()) }

  function Counter(k: Account, g: Shared): int {
    if k.order in g.ledger then g.ledger[k.order].fillCash else 0
  }

  predicate Own(k: Account, t: Task) { JobOrder(t.job) == k.order }

  /** What one listed action will do: a spend consumes, a seed counts what was consumed. */
  function Weigh(k: Account, own: bool): Action -> int {
    (x: Action) =>
      match x
      case Spend(rid, cash) => if rid in k.reservations then cash else 0
      case Seed(_, cash) => if own then -cash else 0
      case _ => 0
  }

  function Meant(what: Settlement, own: bool): int { if own && what.Spending? then what.cash else 0 }

  /** What a task at this point still means to consume, less what it still means to count. */
  function Pending(k: Account, pc: Pc, own: bool): int {
    match pc
    case Doing(todo, next) => Total(todo, Weigh(k, own)) + Pending(k, next, own)
    case CountFill(_, _, next) => Pending(k, next, own)
    case FindPermit(what, next) => Meant(what, own) + Pending(k, next, own)
    case FindReservations(_, what, next) => Meant(what, own) + Pending(k, next, own)
    case _ => 0
  }

  function Owes(k: Account): Task -> int { (t: Task) => Pending(k, t.pc, Own(k, t)) }

  // ----- what one event does to them -----

  /** What consuming `cash` from each of `ids` would take from the reservations. */
  function Assigned(k: Account, ids: seq<Id>, cash: int): int {
    if ids == [] then 0 else (if ids[0] in k.reservations then cash else 0) + Assigned(k, ids[1..], cash)
  }

  datatype Act =
    | Other
    | Asks(reservation: Id, cash: int, now: int)
    | Seeds(cash: int)
    | Counts(cash: int)
    | Assigns(ids: seq<Id>, cash: int, own: bool)
    | Takes(reservation: Id, cash: int, now: int)

  function ActionAct(k: Account, x: Action, own: bool, a: Answer): Act {
    match x
    case Spend(rid, cash) => if rid in k.reservations then Asks(rid, cash, a.bankNow) else Other
    case Seed(_, cash) => if own then Seeds(cash) else Other
    case _ => Other
  }

  /** Where a rise in the counter is to be consumed: the permit of the order's row, or nowhere. */
  function FindAct(g: Shared, id: Id, pc: Pc, own: bool): Act {
    match pc
    case FindPermit(Spending(cash), _) =>
      if id in g.ledger && g.ledger[id].permitId != "" then Other else Assigns([], cash, own)
    case FindReservations(permitId, Spending(cash), _) =>
      Assigns(if permitId in g.permits then g.permits[permitId].permit.reservationIds else [], cash, own)
    case _ => Other
  }

  /**
   A task's next step as far as this account is concerned: a consume, the seeding, the counting of a poll, or
   the choice of the reservations that a fill is consumed from.
   */
  function ActOf(k: Account, g: Shared, t: Task, a: Answer): Act {
    match t.pc
    case Await =>
      if t.job.SubmitJob? && a.placed.Acked? && a.placed.result.filled != 0
      then Assigns(t.job.permit.reservationIds, AckCash(t.job.order, a.placed.result), Own(k, t)) else Other
    case Doing(todo, _) => if todo == [] then Other else ActionAct(k, todo[0], Own(k, t), a)
    case CountFill(_, cash, _) => if Own(k, t) && k.order in g.ledger then Counts(cash) else Other
    case _ => FindAct(g, JobOrder(t.job), t.pc, Own(k, t))
  }

  /** What an event means here; a consume that is none of the executor's takes cash from a reservation. */
  function Seen(k: Account, w: World, e: Event): Act {
    match e
    case Advance(i, a) => if i < |w.tasks| then ActOf(k, w.g, w.tasks[i], a) else Other
    case Bank(DoConsume(rid, cash, now)) => if rid in k.reservations then Takes(rid, cash, now) else Other
    case _ => Other
  }

  predicate CanTake(m: Money.State, rid: Id, cash: int, now: int) { rid in m.rows && CanConsume(m.rows[rid], cash, now) }

  /** A consume is refused whole. */
  function RefusedOf(g: Shared, act: Act): int {
    match act
    case Asks(rid, cash, now) => if CanTake(g.money, rid, cash, now) then 0 else cash
    case _ => 0
  }

  /** What a seeding counts that had been counted before it: the counter stood there already. */
  function LateOf(k: Account, g: Shared, act: Act): int {
    match act
    case Seeds(cash) => Min(cash, Counter(k, g))
    case _ => 0
  }

  /** Cash assigned beyond the fill, or short of it, and cash taken by others. */
  function StrayOf(k: Account, g: Shared, act: Act): int {
    match act
    case Assigns(ids, cash, own) => Assigned(k, ids, cash) - if own then cash else 0
    case Takes(rid, cash, now) => if CanTake(g.money, rid, cash, now) then cash else 0
    case _ => 0
  }

  function HeardOf(act: Act): int {
    match act
    case Seeds(cash) => cash
    case Counts(cash) => cash
    case _ => 0
  }

  function RefusedAt(k: Account, w: World, e: Event): int { RefusedOf(w.g, Seen(k, w, e)) }

  function LateAt(k: Account, w: World, e: Event): int { LateOf(k, w.g, Seen(k, w, e)) }

  function StrayAt(k: Account, w: World, e: Event): int { StrayOf(k, w.g, Seen(k, w, e)) }

  function HeardAt(k: Account, w: World, e: Event): int { HeardOf(Seen(k, w, e)) }

  function RefusedIn(k: Account, w: World, events: seq<Event>): int
    decreases |events|
  {
    if events == [] then 0 else RefusedAt(k, w, events[0]) + RefusedIn(k, Apply(w, events[0]), events[1..])
  }

  function LateIn(k: Account, w: World, events: seq<Event>): int
    decreases |events|
  {
    if events == [] then 0 else LateAt(k, w, events[0]) + LateIn(k, Apply(w, events[0]), events[1..])
  }

  function StrayIn(k: Account, w: World, events: seq<Event>): int
    decreases |events|
  {
    if events == [] then 0 else StrayAt(k, w, events[0]) + StrayIn(k, Apply(w, events[0]), events[1..])
  }

  /** The highest cumulative cash the run has counted for the order. */
  function HighestIn(k: Account, w: World, events: seq<Event>): int
    decreases |events|
  {
    if events == [] then 0 else Max(HeardAt(k, w, events[0]), HighestIn(k, Apply(w, events[0]), events[1..]))
  }

  // ----- the invariant -----

  predicate ActionOk(k: Account, g: Shared, x: Action, own: bool) {
    && (x.Spend? ==> x.cash >= 0)
    && (x.Seed? && own ==> x.cash >= 0 && k.order in g.ledger)
  }

  predicate TodoOk(k: Account, g: Shared, todo: seq<Action>, own: bool) {
    forall i :: 0 <= i < |todo| ==> ActionOk(k, g, todo[i], own)
  }

  predicate PcOk(k: Account, g: Shared, pc: Pc, own: bool) {
    match pc
    case Doing(todo, next) => TodoOk(k, g, todo, own) && PcOk(k, g, next, own)
    case CountFill(_, _, next) => PcOk(k, g, next, own)
    case FindPermit(what, next) => (what.Spending? ==> what.cash >= 0) && PcOk(k, g, next, own)
    case FindReservations(_, what, next) => (what.Spending? ==> what.cash >= 0) && PcOk(k, g, next, own)
    case _ => true
  }

  /** From the claim until the answer. */
  predicate Launched(pc: Pc) { ExecutorSafety.PastClaim(pc) || pc.Await? }

  predicate TaskOk(k: Account, g: Shared, t: Task) {
    && PcOk(k, g, t.pc, Own(k, t))
    && (t.job.SubmitJob? ==>
          && (ExecutorSafety.BeforeAnswer(t.pc) || ExecutorSafety.Settles(t.pc))
          && (Launched(t.pc) ==> t.job.order.id in g.ledger))
  }

  ghost predicate TasksOk(k: Account, g: Shared, ts: seq<Task>) { forall i :: 0 <= i < |ts| ==> TaskOk(k, g, ts[i]) }

  ghost predicate Ok(k: Account, w: World) { Counter(k, w.g) >= 0 && TasksOk(k, w.g, w.tasks) }

  /** Ledger rows do not go away. */
  predicate Keeps(g: Shared, g': Shared) { g.ledger.Keys <= g'.ledger.Keys }

  lemma {:induction false} PcStaysOk(k: Account, g: Shared, g': Shared, pc: Pc, own: bool)
    requires Keeps(g, g') && PcOk(k, g, pc, own)
    ensures PcOk(k, g', pc, own)
    decreases pc
  {
    match pc
    case Doing(todo, next) =>
      forall i | 0 <= i < |todo| ensures ActionOk(k, g', todo[i], own) { assert ActionOk(k, g, todo[i], own); }
      PcStaysOk(k, g, g', next, own);
    case CountFill(_, _, next) => PcStaysOk(k, g, g', next, own);
    case FindPermit(_, next) => PcStaysOk(k, g, g', next, own);
    case FindReservations(_, _, next) => PcStaysOk(k, g, g', next, own);
    case _ =>
  }

  lemma {:induction false} TaskStaysOk(k: Account, g: Shared, g': Shared, t: Task)
    requires Keeps(g, g') && TaskOk(k, g, t)
    ensures TaskOk(k, g', t)
  {
    PcStaysOk(k, g, g', t.pc, Own(k, t));
  }

  // ----- weighing lists of actions -----

  lemma {:induction false} TotalNext(todo: seq<Action>, f: Action -> int)
    requires todo != []
    ensures Total(todo, f) == f(todo[0]) + Total(todo[1..], f)
  {}

  lemma {:induction false} Weightless(k: Account, todo: seq<Action>, own: bool)
    requires forall i :: 0 <= i < |todo| ==> !todo[i].Spend? && !todo[i].Seed?
    ensures Total(todo, Weigh(k, own)) == 0
    decreases |todo|
  {
    if todo != [] { Weightless(k, todo[1..], own); }
  }

  /** Spends weigh what they assign. */
  lemma {:induction false} SpendsWeigh(k: Account, ids: seq<Id>, cash: int, own: bool)
    ensures Total(Spends(ids, cash), Weigh(k, own)) == Assigned(k, ids, cash)
    decreases |ids|
  {
    if ids != [] {
      SpendsTail(ids, cash);
      TotalNext(Spends(ids, cash), Weigh(k, own));
      SpendsWeigh(k, ids[1..], cash, own);
    }
  }

  lemma {:induction false} AssignedNowhere(k: Account, cash: int)
    ensures Assigned(k, [], cash) == 0
  {}

  // ----- an answer leads to a balanced list -----

  ghost predicate Balanced(k: Account, g: Shared, pc: Pc, own: bool) {
    Pending(k, pc, own) == 0 && PcOk(k, g, pc, own)
  }

  /** A step in front that neither consumes nor seeds changes nothing. */
  lemma {:induction false} DoingBalanced(k: Account, g: Shared, todo: seq<Action>, next: Pc, own: bool)
    requires forall i :: 0 <= i < |todo| ==> !todo[i].Spend? && !todo[i].Seed?
    requires Balanced(k, g, next, own)
    ensures Balanced(k, g, Doing(todo, next), own)
  {
    Weightless(k, todo, own);
  }

  lemma {:induction false} FillWeighs(k: Account, o: Order, p: Permit, r: OrderResult)
    requires r.filled != 0
    ensures var own := o.id == k.order;
            Total(FillActions(o, p, r), Weigh(k, own)) == Assigned(k, p.reservationIds, AckCash(o, r)) - if own then AckCash(o, r) else 0
  {
    var own, cash := o.id == k.order, AckCash(o, r);
    SpendsWeigh(k, p.reservationIds, cash, own);
    TotalSplit(Spends(p.reservationIds, cash), [Seed(r.filled, cash)], Weigh(k, own));
    TotalOne(Seed(r.filled, cash), Weigh(k, own));
  }

  lemma {:induction false} FillOk(k: Account, g: Shared, o: Order, p: Permit, r: OrderResult)
    requires o.id in g.ledger
    ensures TodoOk(k, g, FillActions(o, p, r), o.id == k.order)
  {
    if r.filled != 0 { CashBounds(r.filled, if r.average.Some? then r.average.value else o.price); }
  }

  /** What an acknowledgement leaves pending is what its fill is assigned beyond itself. */
  lemma {:induction false} AckPends(k: Account, g: Shared, o: Order, p: Permit, r: OrderResult)
    requires o.id in g.ledger
    ensures var pc := AfterAnswer(o, p, Acked(r)); var own := o.id == k.order;
            && PcOk(k, g, pc, own)
            && Pending(k, pc, own) == if r.filled == 0 then 0
                                      else Assigned(k, p.reservationIds, AckCash(o, r)) - if own then AckCash(o, r) else 0
  {
    var own := o.id == k.order;
    var start, fill := [Update(AckState(r)), Mark(AckState(r)), Unlease, Resolve(r)], FillActions(o, p, r);
    if r.filled != 0 { FillWeighs(k, o, p, r); }
    FillOk(k, g, o, p, r);
    AroundFill(k, g, start, fill, Done(Submitted(r, AckState(r))), own);
  }

  lemma {:induction false} AroundFill(k: Account, g: Shared, start: seq<Action>, fill: seq<Action>, next: Pc, own: bool)
    requires forall i :: 0 <= i < |start| ==> !start[i].Spend? && !start[i].Seed?
    requires TodoOk(k, g, fill, own) && next.Done?
    ensures var pc := Doing(start + fill + [Unlease], next);
            PcOk(k, g, pc, own) && Pending(k, pc, own) == Total(fill, Weigh(k, own))
  {
    TotalSplit(start + fill, [Unlease], Weigh(k, own));
    TotalSplit(start, fill, Weigh(k, own));
    Weightless(k, start, own);
    TotalOne(Unlease, Weigh(k, own));
  }

  lemma {:induction false} RefusalBalanced(k: Account, g: Shared, o: Order, p: Permit, answer: PlaceAnswer)
    requires !answer.Acked?
    ensures Balanced(k, g, AfterAnswer(o, p, answer), o.id == k.order)
  {
    var own := o.id == k.order;
    match answer
    case NotSent(reason) =>
      var undone := [Mark(DefinitiveReject), Update(DefinitiveReject), Resolve(REJECTED_RESULT)]
                    + Releases(p.reservationIds, Money.RejectedReason) + [Unlease, Unlease];
      DoingBalanced(k, g, undone, Done(PermitRefused(NothingSent)), own);
      DoingBalanced(k, g, [Unlease, Unlease], Done(NeedsReconciliation), own);
    case OutcomeUnknown =>
      DoingBalanced(k, g, [Mark(SubmissionUnknown), Update(SubmissionUnknown), Unlease, Unlease], Done(NeedsReconciliation), own);
    case Refusal =>
      var undone := [Update(DefinitiveReject), Unlease] + Releases(p.reservationIds, Money.RejectedReason) + [Unlease];
      DoingBalanced(k, g, undone, Done(PermitRefused(RefusedByVenue)), own);
  }

  lemma {:induction false} TerminalBalanced(k: Account, g: Shared, held: bool, current: Lifecycle, r: OrderResult, own: bool)
    requires Executor.Dead(r)
    ensures Balanced(k, g, AfterStatus(held, current, Found(r)), own)
  {
    var rest := Doing(IfHeld(held), Done(State(DefinitiveReject)));
    DoingBalanced(k, g, IfHeld(held), Done(State(DefinitiveReject)), own);
    DoingBalanced(k, g, [Mark(DefinitiveReject), Resolve(r)], FindPermit(Freeing(Executor.ReleaseReason(r)), rest), own);
  }

  lemma {:induction false} WorkingBalanced(k: Account, g: Shared, held: bool, current: Lifecycle, r: OrderResult, own: bool)
    requires Working(r)
    ensures Balanced(k, g, AfterStatus(held, current, Found(r)), own)
  {
    var rest := Doing([Resolve(r)] + IfHeld(held), Done(State(Acknowledged)));
    DoingBalanced(k, g, [Resolve(r)] + IfHeld(held), Done(State(Acknowledged)), own);
    var pc := AfterStatus(held, current, Found(r));
    assert pc.Doing? && pc.todo == [Mark(Acknowledged)];
    assert Balanced(k, g, pc.next, own);
    DoingBalanced(k, g, pc.todo, pc.next, own);
  }

  lemma {:induction false} StatusBalanced(k: Account, g: Shared, held: bool, current: Lifecycle, answer: StatusAnswer, own: bool)
    ensures Balanced(k, g, AfterStatus(held, current, answer), own)
  {
    if answer.Found? && Executor.Dead(answer.result) {
      TerminalBalanced(k, g, held, current, answer.result, own);
    } else if answer.Found? && Working(answer.result) {
      WorkingBalanced(k, g, held, current, answer.result, own);
    } else {
      var pc := AfterStatus(held, current, answer);
      assert pc.Doing? && pc.todo == IfHeld(held) && pc.next.Done?;
      DoingBalanced(k, g, pc.todo, pc.next, own);
    }
  }

  // ----- one step -----

  /** What `act` does to the figures, from `before` pending to `after` pending. */
  ghost predicate Figures(k: Account, g: Shared, g': Shared, before: int, after: int, act: Act) {
    && Consumed(k, g'.money) + after - Counter(k, g')
       == Consumed(k, g.money) + before - Counter(k, g) + LateOf(k, g, act) - RefusedOf(g, act) + StrayOf(k, g, act)
    && Counter(k, g') == Max(Counter(k, g), HeardOf(act))
  }

  /** The effect of a step is what `act` says, and what it leaves is in order. */
  ghost predicate Moves(k: Account, g: Shared, own: bool, pc: Pc, g': Shared, pc': Pc, act: Act) {
    && Keeps(g, g') && PcOk(k, g', pc', own)
    && Figures(k, g, g', Pending(k, pc, own), Pending(k, pc', own), act)
  }

  /** The ledger as before, but for columns accounting does not read. */
  predicate SameRows(g: Shared, g': Shared) {
    && g'.ledger.Keys == g.ledger.Keys
    && forall id :: id in g.ledger ==> g'.ledger[id].fillCash == g.ledger[id].fillCash
  }

  /** One row of the reservations changes. */
  lemma {:induction false} RowChanges(k: Account, rows: map<Id, Money.Reservation>, id: Id, r: Money.Reservation)
    ensures MapSums.Sum(Mine(k, rows[id := r]), Figure())
            == MapSums.Sum(Mine(k, rows), Figure())
               + if id in k.reservations then r.consumed - (if id in rows then rows[id].consumed else 0) else 0
  {
    if id in k.reservations {
      assert Mine(k, rows[id := r]) == Mine(k, rows)[id := r];
      MapSums.SumPut(Mine(k, rows), id, r, Figure());
    } else {
      assert Mine(k, rows[id := r]) == Mine(k, rows);
    }
  }

  lemma {:induction false} FreeKeepsConsumed(k: Account, m: Money.State, id: Id, reason: Money.Reason)
    ensures Consumed(k, Money.Release(m, id, reason).0) == Consumed(k, m)
  {
    var m' := Money.Release(m, id, reason).0;
    if m' != m { RowChanges(k, m.rows, id, m'.rows[id]); }
  }

  lemma {:induction false} SpendTakes(k: Account, m: Money.State, id: Id, cash: int, now: int)
    ensures Consumed(k, Money.Consume(m, id, cash, now).0)
            == Consumed(k, m) + if id in k.reservations && CanTake(m, id, cash, now) then cash else 0
  {
    var m' := Money.Consume(m, id, cash, now).0;
    if m' != m { RowChanges(k, m.rows, id, m'.rows[id]); }
  }

  lemma {:induction false} ReserveKeepsConsumed(k: Account, m: Money.State, r: Money.ReserveRequest)
    ensures Consumed(k, Money.Reserve(m, r).0) == Consumed(k, m)
  {
    var (m', code) := Money.Reserve(m, r);
    if code.Ok? { RowChanges(k, m.rows, r.reservationId, Money.NewRow(r)); }
  }

  /** What a listed action does to ledger and figures. */
  ghost predicate Acted(k: Account, g: Shared, g': Shared, x: Action, own: bool, act: Act) {
    Keeps(g, g') && Figures(k, g, g', Weigh(k, own)(x), 0, act)
  }

  /** An action that neither consumes nor counts. */
  lemma {:induction false} QuietActs(k: Account, g: Shared, g': Shared, x: Action, own: bool, a: Answer)
    requires Counter(k, g) >= 0 && SameRows(g, g') && Consumed(k, g'.money) == Consumed(k, g.money)
    requires !x.Spend? && !x.Seed?
    ensures Acted(k, g, g', x, own, ActionAct(k, x, own, a))
  {}

  lemma {:induction false} SpendActs(k: Account, g: Shared, w: Worker, id: Id, x: Action, a: Answer)
    requires Counter(k, g) >= 0 && x.Spend?
    ensures Acted(k, g, Do(g, w, id, x, a), x, id == k.order, ActionAct(k, x, id == k.order, a))
  {
    SpendTakes(k, g.money, x.reservation, x.cash, a.bankNow);
  }

  lemma {:induction false} UpdateKeepsRows(g: Shared, w: Worker, id: Id, x: Action, a: Answer)
    requires x.Mark? || x.Update? || x.Resolve? || x.Unlease?
    ensures SameRows(g, Do(g, w, id, x, a)) && Do(g, w, id, x, a).money == g.money
  {}

  function RowCounted(g: Shared, id: Id, shares: int, cash: int): Shared
    requires id in g.ledger
  {
    g.(ledger := g.ledger[id := Counted(g.ledger[id], shares, cash).0])
  }

  lemma {:induction false} SeedActs(k: Account, g: Shared, w: Worker, id: Id, x: Action, a: Answer)
    requires Counter(k, g) >= 0 && x.Seed? && ActionOk(k, g, x, id == k.order)
    ensures Acted(k, g, Do(g, w, id, x, a), x, id == k.order, ActionAct(k, x, id == k.order, a))
  {}

  lemma {:induction false} DoActs(k: Account, g: Shared, w: Worker, id: Id, x: Action, a: Answer)
    requires Counter(k, g) >= 0 && ActionOk(k, g, x, id == k.order)
    ensures Acted(k, g, Do(g, w, id, x, a), x, id == k.order, ActionAct(k, x, id == k.order, a))
  {
    match x
    case Free(rid, reason) =>
      FreeKeepsConsumed(k, g.money, rid, reason);
      QuietActs(k, g, Do(g, w, id, x, a), x, id == k.order, a);
    case Spend(_, _) => SpendActs(k, g, w, id, x, a);
    case Seed(_, _) => SeedActs(k, g, w, id, x, a);
    case _ =>
      UpdateKeepsRows(g, w, id, x, a);
      QuietActs(k, g, Do(g, w, id, x, a), x, id == k.order, a);
  }

  lemma {:induction false} DoingMoves(k: Account, g: Shared, w: Worker, id: Id, pc: Pc, a: Answer)
    requires Counter(k, g) >= 0 && pc.Doing? && pc.todo != [] && PcOk(k, g, pc, id == k.order)
    ensures var (g', pc') := StepSettle(g, w, id, pc, a);
            Moves(k, g, id == k.order, pc, g', pc', ActionAct(k, pc.todo[0], id == k.order, a))
  {
    var own := id == k.order;
    assert ActionOk(k, g, pc.todo[0], own);
    DoActs(k, g, w, id, pc.todo[0], a);
    TotalNext(pc.todo, Weigh(k, own));
    var rest := Doing(pc.todo[1..], pc.next);
    assert PcOk(k, g, rest, own) by {
      forall i | 0 <= i < |rest.todo| ensures ActionOk(k, g, rest.todo[i], own) { assert ActionOk(k, g, pc.todo[i + 1], own); }
    }
    PcStaysOk(k, g, Do(g, w, id, pc.todo[0], a), rest, own);
  }

  /** Tables and money stay, and what is pending moves by what `act` assigns. */
  lemma {:induction false} StayMoves(k: Account, g: Shared, own: bool, pc: Pc, pc': Pc, act: Act)
    requires Counter(k, g) >= 0 && PcOk(k, g, pc', own) && (act.Other? || act.Assigns?)
    requires Pending(k, pc', own) == Pending(k, pc, own) + StrayOf(k, g, act)
    ensures Moves(k, g, own, pc, g, pc', act)
  {}

  /** What a task does once the counter has risen by `delta`. */
  function Chasing(delta: int, next: Pc): Pc { if delta > 0 then FindPermit(Spending(delta), next) else next }

  lemma {:induction false} ChasingOk(k: Account, g: Shared, delta: int, next: Pc, own: bool)
    requires PcOk(k, g, next, own)
    ensures PcOk(k, g, Chasing(delta, next), own)
    ensures Pending(k, Chasing(delta, next), own) == Pending(k, next, own) + if own && delta > 0 then delta else 0
  {}

  lemma {:induction false} CountedFigures(k: Account, g: Shared, id: Id, shares: int, cash: int, before: int)
    requires Counter(k, g) >= 0 && id in g.ledger
    ensures var delta := Counted(g.ledger[id], shares, cash).1; var own := id == k.order;
            Figures(k, g, RowCounted(g, id, shares, cash), before, before + (if own then delta else 0), if own then Counts(cash) else Other)
  {}

  lemma {:induction false} CountRowMoves(k: Account, g: Shared, id: Id, shares: int, cash: int, next: Pc)
    requires Counter(k, g) >= 0 && PcOk(k, g, next, id == k.order) && id in g.ledger
    ensures var own := id == k.order;
            Moves(k, g, own, CountFill(shares, cash, next), RowCounted(g, id, shares, cash),
                  Chasing(Counted(g.ledger[id], shares, cash).1, next), if own then Counts(cash) else Other)
  {
    var own, g', delta := id == k.order, RowCounted(g, id, shares, cash), Counted(g.ledger[id], shares, cash).1;
    CountedFigures(k, g, id, shares, cash, Pending(k, next, own));
    PcStaysOk(k, g, g', next, own);
    ChasingOk(k, g', delta, next, own);
  }

  lemma {:induction false} CountMoves(k: Account, g: Shared, w: Worker, id: Id, pc: Pc, a: Answer)
    requires Counter(k, g) >= 0 && pc.CountFill? && PcOk(k, g, pc, id == k.order)
    ensures var (g', pc') := StepSettle(g, w, id, pc, a);
            Moves(k, g, id == k.order, pc, g', pc', if id == k.order && id in g.ledger then Counts(pc.cash) else Other)
  {
    if id in g.ledger {
      CountRowMoves(k, g, id, pc.shares, pc.cash, pc.next);
    } else {
      StayMoves(k, g, id == k.order, pc, pc.next, Other);
    }
  }

  lemma {:induction false} FindPermitMoves(k: Account, g: Shared, w: Worker, id: Id, pc: Pc, a: Answer)
    requires Counter(k, g) >= 0 && pc.FindPermit? && PcOk(k, g, pc, id == k.order)
    ensures var (g', pc') := StepSettle(g, w, id, pc, a);
            Moves(k, g, id == k.order, pc, g', pc', FindAct(g, id, pc, id == k.order))
  {
    var act := FindAct(g, id, pc, id == k.order);
    if act.Assigns? { AssignedNowhere(k, act.cash); }
    StayMoves(k, g, id == k.order, pc, StepSettle(g, w, id, pc, a).1, act);
  }

  lemma {:induction false} FindReservationsMoves(k: Account, g: Shared, w: Worker, id: Id, pc: Pc, a: Answer)
    requires Counter(k, g) >= 0 && pc.FindReservations? && PcOk(k, g, pc, id == k.order)
    ensures var (g', pc') := StepSettle(g, w, id, pc, a);
            Moves(k, g, id == k.order, pc, g', pc', FindAct(g, id, pc, id == k.order))
  {
    var own, act := id == k.order, FindAct(g, id, pc, id == k.order);
    if pc.permitId in g.permits {
      var ids := g.permits[pc.permitId].permit.reservationIds;
      MoneyActionsPend(k, g, pc.what, ids, own);
    } else if act.Assigns? {
      AssignedNowhere(k, act.cash);
    }
    StayMoves(k, g, own, pc, StepSettle(g, w, id, pc, a).1, act);
  }

  lemma {:induction false} MoneyActionsPend(k: Account, g: Shared, what: Settlement, ids: seq<Id>, own: bool)
    requires what.Spending? ==> what.cash >= 0
    ensures TodoOk(k, g, MoneyActions(what, ids), own)
    ensures Total(MoneyActions(what, ids), Weigh(k, own)) == if what.Spending? then Assigned(k, ids, what.cash) else 0
  {
    match what
    case Freeing(reason) => Weightless(k, Releases(ids, reason), own);
    case Spending(cash) => SpendsWeigh(k, ids, cash, own);
  }

  predicate Settling(pc: Pc) { pc.Doing? || pc.CountFill? || pc.FindPermit? || pc.FindReservations? || pc.Done? }

  lemma {:induction false} SettleMoves(k: Account, g: Shared, t: Task, a: Answer)
    requires Counter(k, g) >= 0 && TaskOk(k, g, t) && Settling(t.pc)
    ensures var (g', pc') := StepSettle(g, t.worker, JobOrder(t.job), t.pc, a);
            Moves(k, g, Own(k, t), t.pc, g', pc', ActOf(k, g, t, a))
  {
    var id := JobOrder(t.job);
    if t.pc.Doing? && t.pc.todo != [] {
      DoingMoves(k, g, t.worker, id, t.pc, a);
    } else if t.pc.CountFill? {
      CountMoves(k, g, t.worker, id, t.pc, a);
    } else if t.pc.FindPermit? {
      FindPermitMoves(k, g, t.worker, id, t.pc, a);
    } else if t.pc.FindReservations? {
      FindReservationsMoves(k, g, t.worker, id, t.pc, a);
    } else {
      if t.pc.Doing? { assert Total(t.pc.todo, Weigh(k, Own(k, t))) == 0; }
      StayMoves(k, g, Own(k, t), t.pc, if t.pc.Doing? then t.pc.next else t.pc, Other);
    }
  }

  // ----- one step of a submit before it is answered -----

  /** Nothing counted, nothing consumed. */
  ghost predicate Steady(k: Account, g: Shared, g': Shared) {
    Keeps(g, g') && g'.money == g.money && Counter(k, g') == Counter(k, g)
  }

  lemma {:induction false} SubmitSteady(k: Account, g: Shared, w: Worker, o: Order, p: Permit, pc: Pc, a: Answer)
    requires ExecutorSafety.BeforeAnswer(pc) && (Launched(pc) ==> o.id in g.ledger)
    ensures var (g', pc') := StepSubmit(g, w, o, p, pc, a);
            Steady(k, g, g') && (Launched(pc') ==> o.id in g'.ledger)
  {
    if !pc.Claim? && !pc.RecordSubmitting? { SubmitKeepsLedger(g, w, o, p, pc, a); }
  }

  lemma {:induction false} SubmitKeepsLedger(g: Shared, w: Worker, o: Order, p: Permit, pc: Pc, a: Answer)
    requires ExecutorSafety.BeforeAnswer(pc) && !pc.Claim? && !pc.RecordSubmitting?
    ensures var (g', pc') := StepSubmit(g, w, o, p, pc, a);
            g'.ledger == g.ledger && g'.money == g.money && (Launched(pc') ==> Launched(pc))
  {}

  /** Where a submit stands after a step, short of an acknowledgement: nothing pending. */
  lemma {:induction false} SubmitBalanced(k: Account, g: Shared, w: Worker, o: Order, p: Permit, pc: Pc, a: Answer)
    requires ExecutorSafety.BeforeAnswer(pc) && (pc.Await? ==> !a.placed.Acked?)
    ensures Balanced(k, g, pc, o.id == k.order)
    ensures Balanced(k, g, StepSubmit(g, w, o, p, pc, a).1, o.id == k.order)
  {
    var pc' := StepSubmit(g, w, o, p, pc, a).1;
    if pc.Await? {
      RefusalBalanced(k, g, o, p, a.placed);
    } else if pc'.Doing? {
      RefusedBare(g, w, o, p, pc, a);
      DoingBalanced(k, g, pc'.todo, pc'.next, o.id == k.order);
    }
  }

  /** A submit that is turned away only gives up the lease. */
  lemma {:induction false} RefusedBare(g: Shared, w: Worker, o: Order, p: Permit, pc: Pc, a: Answer)
    requires ExecutorSafety.BeforeAnswer(pc) && !pc.Await? && StepSubmit(g, w, o, p, pc, a).1.Doing?
    ensures var pc' := StepSubmit(g, w, o, p, pc, a).1;
            pc'.next.Done? && forall i :: 0 <= i < |pc'.todo| ==> pc'.todo[i].Unlease?
  {
    assert forall outcome, early :: Refuse(outcome, early).todo == if early then [Unlease, Unlease] else [Unlease];
  }

  lemma {:induction false} SteadyMoves(k: Account, g: Shared, own: bool, pc: Pc, g': Shared, pc': Pc)
    requires Steady(k, g, g') && Counter(k, g) >= 0 && Balanced(k, g, pc, own) && Balanced(k, g, pc', own)
    ensures Moves(k, g, own, pc, g', pc', Other)
  {
    PcStaysOk(k, g, g', pc', own);
    SteadyFigures(k, g, g');
  }

  lemma {:induction false} SteadyFigures(k: Account, g: Shared, g': Shared)
    requires Steady(k, g, g') && Counter(k, g) >= 0
    ensures Figures(k, g, g', 0, 0, Other)
  {}

  lemma {:induction false} AckMoves(k: Account, g: Shared, t: Task, a: Answer)
    requires Counter(k, g) >= 0 && t.job.SubmitJob? && t.pc.Await? && a.placed.Acked? && t.job.order.id in g.ledger
    ensures Moves(k, g, Own(k, t), t.pc, g, AfterAnswer(t.job.order, t.job.permit, a.placed), ActOf(k, g, t, a))
  {
    AckPends(k, g, t.job.order, t.job.permit, a.placed.result);
    StayMoves(k, g, Own(k, t), t.pc, AfterAnswer(t.job.order, t.job.permit, a.placed), ActOf(k, g, t, a));
  }

  lemma {:induction false} SubmitMoves(k: Account, g: Shared, t: Task, a: Answer)
    requires Counter(k, g) >= 0 && TaskOk(k, g, t) && t.job.SubmitJob? && ExecutorSafety.BeforeAnswer(t.pc)
    ensures var (g', pc') := StepSubmit(g, t.worker, t.job.order, t.job.permit, t.pc, a);
            Moves(k, g, Own(k, t), t.pc, g', pc', ActOf(k, g, t, a)) && TaskOk(k, g', t.(pc := pc'))
  {
    var o, p := t.job.order, t.job.permit;
    var (g', pc') := StepSubmit(g, t.worker, o, p, t.pc, a);
    ExecutorSafety.ShapeStays(g, t.worker, o, p, t.pc, a);
    if t.pc.Await? && a.placed.Acked? {
      AckMoves(k, g, t, a);
    } else {
      SubmitSteady(k, g, t.worker, o, p, t.pc, a);
      SubmitBalanced(k, g, t.worker, o, p, t.pc, a);
      SteadyMoves(k, g, Own(k, t), t.pc, g', pc');
    }
  }

  // ----- one step of anything -----

  lemma {:induction false} ReconcileMoves(k: Account, g: Shared, w: Worker, id: Id, pc: Pc, a: Answer)
    requires Counter(k, g) >= 0 && !Settling(pc)
    ensures var (g', pc') := StepReconcile(g, w, id, pc, a);
            Moves(k, g, id == k.order, pc, g', pc', Other)
  {
    var own := id == k.order;
    var (g', pc') := StepReconcile(g, w, id, pc, a);
    ReconcileBalanced(k, g, w, id, pc, a);
    ReconcileSteady(k, g, w, id, pc, a);
    SteadyMoves(k, g, own, pc, g', pc');
  }

  lemma {:induction false} ReconcileSteady(k: Account, g: Shared, w: Worker, id: Id, pc: Pc, a: Answer)
    requires !Settling(pc)
    ensures Steady(k, g, StepReconcile(g, w, id, pc, a).0)
  {}

  lemma {:induction false} ReconcileBalanced(k: Account, g: Shared, w: Worker, id: Id, pc: Pc, a: Answer)
    requires !Settling(pc)
    ensures Balanced(k, g, pc, id == k.order) && Balanced(k, g, StepReconcile(g, w, id, pc, a).1, id == k.order)
  {
    var own, pc' := id == k.order, StepReconcile(g, w, id, pc, a).1;
    if pc.Query? {
      StatusBalanced(k, g, pc.held, pc.current, a.status, own);
    } else if pc'.Doing? {
      assert pc'.next.Done? && pc'.todo == IfHeld(pc.held);
      DoingBalanced(k, g, pc'.todo, pc'.next, own);
    }
  }

  lemma {:induction false} CancelMoves(k: Account, g: Shared, w: Worker, id: Id, pc: Pc, a: Answer)
    requires Counter(k, g) >= 0 && !Settling(pc)
    ensures var (g', pc') := StepCancel(g, w, id, pc, a);
            Moves(k, g, id == k.order, pc, g', pc', Other)
  {
    var own := id == k.order;
    var (g', pc') := StepCancel(g, w, id, pc, a);
    CancelBalanced(k, g, w, id, pc, a);
    SteadyMoves(k, g, own, pc, g', pc');
  }

  lemma {:induction false} CancelBalanced(k: Account, g: Shared, w: Worker, id: Id, pc: Pc, a: Answer)
    requires !Settling(pc)
    ensures Balanced(k, g, pc, id == k.order) && Balanced(k, g, StepCancel(g, w, id, pc, a).1, id == k.order)
  {
    var own, pc' := id == k.order, StepCancel(g, w, id, pc, a).1;
    if pc.SendCancel? && a.cancelled {
      ConfirmedBalanced(k, g, own);
    } else if pc'.Doing? {
      assert pc'.todo == [Unlease] && pc'.next.Done?;
      DoingBalanced(k, g, pc'.todo, pc'.next, own);
    }
  }

  lemma {:induction false} ConfirmedBalanced(k: Account, g: Shared, own: bool)
    ensures Balanced(k, g, Doing([Resolve(CANCELED_RESULT)],
                                 FindPermit(Freeing(Money.CancelledReason), Doing([Unlease], Done(CancelConfirmed)))), own)
  {
    var last := Doing([Unlease], Done(CancelConfirmed));
    DoingBalanced(k, g, [Unlease], Done(CancelConfirmed), own);
    assert Balanced(k, g, FindPermit(Freeing(Money.CancelledReason), last), own);
    DoingBalanced(k, g, [Resolve(CANCELED_RESULT)], FindPermit(Freeing(Money.CancelledReason), last), own);
  }

  lemma {:induction false} StepMoves(k: Account, g: Shared, t: Task, a: Answer)
    requires Counter(k, g) >= 0 && TaskOk(k, g, t)
    ensures var (g', t') := Step(g, t, a);
            Moves(k, g, Own(k, t), t.pc, g', t'.pc, ActOf(k, g, t, a)) && TaskOk(k, g', t')
  {
    if Settling(t.pc) {
      SettleMoves(k, g, t, a);
      if t.job.SubmitJob? { ExecutorSafety.SettleStaysSettling(g, t.worker, t.job.order.id, t.pc, a); }
    } else {
      match t.job
      case SubmitJob(_, _) => SubmitMoves(k, g, t, a);
      case ReconcileJob(id) => ReconcileMoves(k, g, t.worker, id, t.pc, a);
      case CancelJob(id) => CancelMoves(k, g, t.worker, id, t.pc, a);
    }
  }

  // ----- the world -----

  lemma {:induction false} TotalReplace<T>(ts: seq<T>, i: nat, t: T, f: T -> int)
    requires i < |ts|
    ensures Total(ts[i := t], f) == Total(ts, f) - f(ts[i]) + f(t)
    decreases |ts|
  {
    if i > 0 {
      assert ts[i := t][1..] == ts[1..][i - 1 := t];
      TotalReplace(ts[1..], i - 1, t, f);
    } else {
      assert ts[i := t][1..] == ts[1..];
    }
  }

  function AllPending(k: Account, w: World): int { Total(w.tasks, Owes(k)) }

  lemma {:induction false} AdvanceMoves(k: Account, w: World, i: nat, a: Answer)
    requires Ok(k, w) && i < |w.tasks|
    ensures var e := Advance(i, a); var w' := Apply(w, e);
            Ok(k, w') && Figures(k, w.g, w'.g, AllPending(k, w), AllPending(k, w'), Seen(k, w, e))
  {
    var t := w.tasks[i];
    var (g', t') := Step(w.g, t, a);
    assert TaskOk(k, w.g, t);
    StepMoves(k, w.g, t, a);
    TotalReplace(w.tasks, i, t', Owes(k));
    var ts' := w.tasks[i := t'];
    forall j | 0 <= j < |ts'| ensures TaskOk(k, g', ts'[j]) {
      if j != i {
        assert TaskOk(k, w.g, w.tasks[j]);
        TaskStaysOk(k, w.g, g', w.tasks[j]);
      }
    }
  }

  lemma {:induction false} StartMoves(k: Account, w: World, job: Job, worker: Worker)
    requires Ok(k, w)
    ensures var e := Start(job, worker); var w' := Apply(w, e);
            Ok(k, w') && Figures(k, w.g, w'.g, AllPending(k, w), AllPending(k, w'), Seen(k, w, e))
  {
    var t := Task(job, worker, Acquire);
    TotalSplit(w.tasks, [t], Owes(k));
    TotalOne(t, Owes(k));
    var ts := w.tasks + [t];
    forall j | 0 <= j < |ts| ensures TaskOk(k, w.g, ts[j]) {
      if j < |w.tasks| { assert TaskOk(k, w.g, w.tasks[j]); }
    }
  }

  /** Credits, reservations, releases, and other parties' consumes. */
  lemma {:induction false} BankMoves(k: Account, w: World, step: Money.Step)
    requires Counter(k, w.g) >= 0
    ensures var e := Bank(step); var w' := Apply(w, e);
            Figures(k, w.g, w'.g, AllPending(k, w), AllPending(k, w'), Seen(k, w, e))
  {
    match step
    case DoReserve(r) => ReserveKeepsConsumed(k, w.g.money, r);
    case DoConsume(rid, cash, now) => SpendTakes(k, w.g.money, rid, cash, now);
    case DoRelease(rid, reason) => FreeKeepsConsumed(k, w.g.money, rid, reason);
    case DoCredit(_, _, _) =>
    case RolledBack =>
  }

  lemma {:induction false} OutsideMoves(k: Account, w: World, e: Event)
    requires Ok(k, w) && !e.Start? && !e.Advance?
    ensures var w' := Apply(w, e);
            Ok(k, w') && Figures(k, w.g, w'.g, AllPending(k, w), AllPending(k, w'), Seen(k, w, e))
  {
    var w' := Apply(w, e);
    if e.Bank? { BankMoves(k, w, e.step); }
    forall j | 0 <= j < |w.tasks| ensures TaskOk(k, w'.g, w.tasks[j]) {
      assert TaskOk(k, w.g, w.tasks[j]);
      TaskStaysOk(k, w.g, w'.g, w.tasks[j]);
    }
  }

  lemma {:induction false} ApplyMoves(k: Account, w: World, e: Event)
    requires Ok(k, w)
    ensures var w' := Apply(w, e);
            Ok(k, w') && Figures(k, w.g, w'.g, AllPending(k, w), AllPending(k, w'), Seen(k, w, e))
  {
    match e
    case Start(job, worker) => StartMoves(k, w, job, worker);
    case Advance(i, a) => if i < |w.tasks| { AdvanceMoves(k, w, i, a); }
    case _ => OutsideMoves(k, w, e);
  }

  lemma {:induction false} ActNonNegative(k: Account, w: World, e: Event)
    requires Ok(k, w)
    ensures LateAt(k, w, e) >= 0 && RefusedAt(k, w, e) >= 0
    ensures LateAt(k, w, e) == 0 <==> !SeedsLate(k, w, e)
  {
    if e.Advance? && e.task < |w.tasks| {
      var t := w.tasks[e.task];
      assert TaskOk(k, w.g, t);
      if t.pc.Doing? && t.pc.todo != [] { assert ActionOk(k, w.g, t.pc.todo[0], Own(k, t)); }
    }
  }

  /** An acknowledged fill is seeded when the counter has already heard of one. */
  predicate SeedsLate(k: Account, w: World, e: Event) {
    var act := Seen(k, w, e);
    act.Seeds? && act.cash > 0 && Counter(k, w.g) > 0
  }

  predicate NothingLate(k: Account, w: World, events: seq<Event>)
    decreases |events|
  {
    events == [] || (!SeedsLate(k, w, events[0]) && NothingLate(k, Apply(w, events[0]), events[1..]))
  }

  /**
   Over any run: the figures move by what was counted late, less what was refused, plus what went astray, and
   the counter hears everything counted.
   */
  lemma {:induction false} RunMoves(k: Account, w: World, events: seq<Event>)
    requires Ok(k, w)
    ensures var w' := Run(w, events);
            && Ok(k, w')
            && Consumed(k, w'.g.money) + AllPending(k, w') - Counter(k, w'.g)
               == Consumed(k, w.g.money) + AllPending(k, w) - Counter(k, w.g)
                  + LateIn(k, w, events) - RefusedIn(k, w, events) + StrayIn(k, w, events)
            && Counter(k, w'.g) == Max(Counter(k, w.g), HighestIn(k, w, events))
    decreases |events|
  {
    if events != [] {
      ApplyMoves(k, w, events[0]);
      RunMoves(k, Apply(w, events[0]), events[1..]);
    }
  }

  lemma {:induction false} RunNonNegative(k: Account, w: World, events: seq<Event>)
    requires Ok(k, w)
    ensures LateIn(k, w, events) >= 0 && RefusedIn(k, w, events) >= 0
    ensures LateIn(k, w, events) == 0 <==> NothingLate(k, w, events)
    decreases |events|
  {
    if events != [] {
      ApplyMoves(k, w, events[0]);
      ActNonNegative(k, w, events[0]);
      RunNonNegative(k, Apply(w, events[0]), events[1..]);
    }
  }

  /**
   The account in every interleaving, from empty tables, for every order and any set of reservations: whatever
   runs at once and wherever it stops, the cash consumed is the highest cash counted, plus what was counted late,
   less what was refused, plus what went astray, less what operations that have not ended still mean to consume,
   plus what they still mean to count.
   */
  lemma {:induction false} RunAccounts(k: Account, events: seq<Event>)
    ensures var w := Run(BEGIN, events);
            && Consumed(k, w.g.money) == HighestIn(k, BEGIN, events) + LateIn(k, BEGIN, events) - RefusedIn(k, BEGIN, events)
                                         + StrayIn(k, BEGIN, events) - AllPending(k, w)
            && Counter(k, w.g) == HighestIn(k, BEGIN, events)
            && LateIn(k, BEGIN, events) >= 0 && RefusedIn(k, BEGIN, events) >= 0
  {
    assert Mine(k, BEGIN.g.money.rows) == map[];
    RunMoves(k, BEGIN, events);
    RunNonNegative(k, BEGIN, events);
    HighestInNonNegative(k, BEGIN, events);
  }

  lemma {:induction false} HighestInNonNegative(k: Account, w: World, events: seq<Event>)
    ensures HighestIn(k, w, events) >= 0
    decreases |events|
  {
    if events != [] { HighestInNonNegative(k, Apply(w, events[0]), events[1..]); }
  }

  // ----- when the total is right -----

  lemma {:induction false} AtRestPendsNothing(k: Account, ts: seq<Task>)
    requires forall i :: 0 <= i < |ts| ==> ts[i].pc.Done?
    ensures Total(ts, Owes(k)) == 0
    decreases |ts|
  {
    if ts != [] { AtRestPendsNothing(k, ts[1..]); }
  }

  ghost predicate AllEnded(ts: seq<Task>) { forall i :: 0 <= i < |ts| ==> ts[i].pc.Done? }

  /**
   Without a crash: once every operation has ended the total is the highest cash counted exactly when what was
   counted late and what went astray make up for what was refused.
   */
  lemma {:induction false} TotalRightIff(k: Account, events: seq<Event>)
    requires AllEnded(Run(BEGIN, events).tasks)
    ensures Consumed(k, Run(BEGIN, events).g.money) == HighestIn(k, BEGIN, events)
            <==> LateIn(k, BEGIN, events) + StrayIn(k, BEGIN, events) == RefusedIn(k, BEGIN, events)
  {
    RunAccounts(k, events);
    AtRestPendsNothing(k, Run(BEGIN, events).tasks);
  }
}
