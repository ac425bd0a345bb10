/**
 When the cash consumed for an order is right. Each permit the money kernel issues has one reservation of its
 own; if every permit an order is sent under is of that kind, however many there are, nothing goes astray.
 */
module ExecutorTotals {
  import opened Wrappers
  import opened BigInt
  import opened SeqSums
  import opened ExecutorSteps
  import opened ExecutorFills
  import opened ExecutorAccounts
  import ExecutorSafety

  // ----- permits that name one reservation each -----

  /** An order's own permit names exactly one of its reservations, once; any other permit names none of them. */
  predicate NamesOne(k: Account, ids: seq<Id>, own: bool) {
    if own then exists j :: 0 <= j < |ids| && OnlyAt(k, ids, j)
    else forall i :: 0 <= i < |ids| ==> ids[i] !in k.reservations
  }

  predicate OnlyAt(k: Account, ids: seq<Id>, j: nat)
    requires j < |ids|
  {
    ids[j] in k.reservations && forall i :: 0 <= i < |ids| && i != j ==> ids[i] !in k.reservations
  }

  lemma {:induction false} NoneAssigned(k: Account, ids: seq<Id>, cash: int)
    requires forall i :: 0 <= i < |ids| ==> ids[i] !in k.reservations
    ensures Assigned(k, ids, cash) == 0
    decreases |ids|
  {
    if ids != [] { NoneAssigned(k, ids[1..], cash); }
  }

  lemma {:induction false} OneAssigned(k: Account, ids: seq<Id>, j: nat, cash: int)
    requires j < |ids| && OnlyAt(k, ids, j)
    ensures Assigned(k, ids, cash) == cash
    decreases |ids|
  {
    if j == 0 {
      NoneAssigned(k, ids[1..], cash);
    } else {
      assert ids[1..][j - 1] == ids[j];
      OneAssigned(k, ids[1..], j - 1, cash);
    }
  }

  lemma {:induction false} NothingAstray(k: Account, g: Shared, ids: seq<Id>, cash: int, own: bool)
    requires NamesOne(k, ids, own)
    ensures StrayOf(k, g, Assigns(ids, cash, own)) == 0
  {
    if own {
      var j :| 0 <= j < |ids| && OnlyAt(k, ids, j);
      OneAssigned(k, ids, j, cash);
    } else {
      NoneAssigned(k, ids, cash);
    }
  }

  /** The reservations each permit id stands for. */
  type Names = Id -> seq<Id>

  predicate JobTied(k: Account, n: Names, job: Job) {
    job.SubmitJob? ==>
      && job.permit.id != "" && job.permit.reservationIds == n(job.permit.id)
      && NamesOne(k, n(job.permit.id), job.order.id == k.order)
  }

  /** Permits as above, however they arrive, and nobody else consuming from the reservations. */
  predicate EventTied(k: Account, n: Names, e: Event) {
    match e
    case Start(job, _) => JobTied(k, n, job)
    case Issue(p) => p.reservationIds == n(p.id)
    case Bank(step) => step.DoConsume? ==> step.id !in k.reservations
    case _ => true
  }

  ghost predicate EventsTied(k: Account, n: Names, events: seq<Event>) {
    forall i :: 0 <= i < |events| ==> EventTied(k, n, events[i])
  }

  predicate RowTied(k: Account, n: Names, g: Shared, id: Id)
    requires id in g.ledger
  {
    var row := g.ledger[id];
    row.permitId != "" && row.permitId in g.permits && NamesOne(k, n(row.permitId), id == k.order)
  }

  ghost predicate TablesTied(k: Account, n: Names, g: Shared) {
    && (forall p :: p in g.permits ==> g.permits[p].permit.reservationIds == n(p))
    && (forall id :: id in g.ledger ==> RowTied(k, n, g, id))
  }

  predicate PcTied(k: Account, n: Names, g: Shared, pc: Pc, own: bool) {
    match pc
    case Doing(_, next) => PcTied(k, n, g, next, own)
    case CountFill(_, _, next) => PcTied(k, n, g, next, own)
    case FindPermit(what, next) => (what.Spending? && own ==> k.order in g.ledger) && PcTied(k, n, g, next, own)
    case FindReservations(permitId, what, next) =>
      (what.Spending? ==> permitId in g.permits && NamesOne(k, n(permitId), own)) && PcTied(k, n, g, next, own)
    case _ => true
  }

  predicate TaskTied(k: Account, n: Names, g: Shared, t: Task) {
    && JobTied(k, n, t.job) && PcTied(k, n, g, t.pc, Own(k, t))
    && (t.job.SubmitJob? && Launched(t.pc) ==> t.job.permit.id in g.permits)
  }

  ghost predicate TasksTied(k: Account, n: Names, g: Shared, ts: seq<Task>) {
    forall i :: 0 <= i < |ts| ==> TaskTied(k, n, g, ts[i])
  }

  ghost predicate Tied(k: Account, n: Names, w: World) { TablesTied(k, n, w.g) && TasksTied(k, n, w.g, w.tasks) }

  /** Permits and ledger rows do not go away. */
  predicate Stays(g: Shared, g': Shared) { g.permits.Keys <= g'.permits.Keys && g.ledger.Keys <= g'.ledger.Keys }

  lemma {:induction false} PcStaysTied(k: Account, n: Names, g: Shared, g': Shared, pc: Pc, own: bool)
    requires Stays(g, g') && PcTied(k, n, g, pc, own)
    ensures PcTied(k, n, g', pc, own)
    decreases pc
  {
    match pc
    case Doing(_, next) => PcStaysTied(k, n, g, g', next, own);
    case CountFill(_, _, next) => PcStaysTied(k, n, g, g', next, own);
    case FindPermit(_, next) => PcStaysTied(k, n, g, g', next, own);
    case FindReservations(_, _, next) => PcStaysTied(k, n, g, g', next, own);
    case _ =>
  }

  lemma {:induction false} TaskStaysTied(k: Account, n: Names, g: Shared, g': Shared, t: Task)
    requires Stays(g, g') && TaskTied(k, n, g, t)
    ensures TaskTied(k, n, g', t)
  {
    PcStaysTied(k, n, g, g', t.pc, Own(k, t));
  }

  ghost predicate KeepsTied(k: Account, n: Names, g: Shared, g': Shared) { Stays(g, g') && TablesTied(k, n, g') }

  lemma {:induction false} SavedTied(k: Account, n: Names, g: Shared, p: Permit)
    requires TablesTied(k, n, g) && p.reservationIds == n(p.id)
    ensures KeepsTied(k, n, g, g.(permits := Saved(g.permits, p)))
  {
    var g' := g.(permits := Saved(g.permits, p));
    forall id | id in g'.ledger ensures RowTied(k, n, g', id) { assert RowTied(k, n, g, id); }
  }

  lemma {:induction false} RecordedTied(k: Account, n: Names, g: Shared, id: Id, permitId: Id)
    requires TablesTied(k, n, g) && permitId != "" && permitId in g.permits && NamesOne(k, n(permitId), id == k.order)
    ensures KeepsTied(k, n, g, g.(ledger := Recorded(g.ledger, id, permitId)))
  {
    var g' := g.(ledger := Recorded(g.ledger, id, permitId));
    forall other | other in g'.ledger ensures RowTied(k, n, g', other) {
      if other != id { assert RowTied(k, n, g, other); }
    }
  }

  /** A permit's use is recorded; what it names stays. */
  function Using(g: Shared, p: Id, id: Id): Shared
    requires p in g.permits
  {
    g.(permits := g.permits[p := g.permits[p].(used := true, claimedBy := Some(id))])
  }

  lemma {:induction false} UsedTied(k: Account, n: Names, g: Shared, p: Id, id: Id)
    requires TablesTied(k, n, g) && p in g.permits
    ensures KeepsTied(k, n, g, Using(g, p, id))
  {
    var g' := Using(g, p, id);
    forall other | other in g'.ledger ensures RowTied(k, n, g', other) { assert RowTied(k, n, g, other); }
  }

  lemma {:induction false} ClaimTied(k: Account, n: Names, g: Shared, p: Id, id: Id)
    requires TablesTied(k, n, g) && p in g.permits && p != "" && NamesOne(k, n(p), id == k.order)
    ensures KeepsTied(k, n, g, Claimed(g, p, id))
  {
    UsedTied(k, n, g, p, id);
    RecordedTied(k, n, Using(g, p, id), id, p);
    assert Claimed(g, p, id) == Using(g, p, id).(ledger := Recorded(g.ledger, id, p));
  }

  /** The permits stay, and so does what each row is bound to. */
  predicate SameBinding(g: Shared, g': Shared) {
    && g'.permits == g.permits && g'.ledger.Keys == g.ledger.Keys
    && forall id :: id in g.ledger ==> g'.ledger[id].permitId == g.ledger[id].permitId
  }

  lemma {:induction false} SameBindingTied(k: Account, n: Names, g: Shared, g': Shared)
    requires TablesTied(k, n, g) && SameBinding(g, g')
    ensures KeepsTied(k, n, g, g')
  {
    forall id | id in g'.ledger ensures RowTied(k, n, g', id) { assert RowTied(k, n, g, id); }
  }

  lemma {:induction false} DoBinds(g: Shared, w: Worker, id: Id, x: Action, a: Answer)
    ensures SameBinding(g, Do(g, w, id, x, a))
  {}

  lemma {:induction false} SettleBinds(g: Shared, w: Worker, id: Id, pc: Pc, a: Answer)
    ensures SameBinding(g, StepSettle(g, w, id, pc, a).0)
  {
    if pc.Doing? && pc.todo != [] { DoBinds(g, w, id, pc.todo[0], a); }
  }

  lemma {:induction false} SubmitBinds(g: Shared, w: Worker, o: Order, p: Permit, pc: Pc, a: Answer)
    requires ExecutorSafety.BeforeAnswer(pc) && !pc.FirstSave? && !pc.SecondSave? && !pc.RecordSubmitting? && !pc.Claim?
    ensures SameBinding(g, StepSubmit(g, w, o, p, pc, a).0)
  {}

  lemma {:induction false} SubmitTied(k: Account, n: Names, g: Shared, w: Worker, o: Order, p: Permit, pc: Pc, a: Answer)
    requires TablesTied(k, n, g) && JobTied(k, n, SubmitJob(o, p)) && ExecutorSafety.BeforeAnswer(pc)
    requires Launched(pc) ==> p.id in g.permits
    ensures KeepsTied(k, n, g, StepSubmit(g, w, o, p, pc, a).0)
  {
    SameBindingTied(k, n, g, g);
    if pc.FirstSave? || pc.SecondSave? {
      SavedTied(k, n, g, p);
    } else if pc.RecordSubmitting? {
      RecordedTied(k, n, g, o.id, p.id);
    } else if pc.Claim? {
      if Claimable(g, p.id, a.dbNow) { ClaimTied(k, n, g, p.id, o.id); }
    } else {
      SubmitBinds(g, w, o, p, pc, a);
      SameBindingTied(k, n, g, StepSubmit(g, w, o, p, pc, a).0);
    }
  }

  lemma {:induction false} SubmitClaims(g: Shared, w: Worker, o: Order, p: Permit, pc: Pc, a: Answer)
    requires ExecutorSafety.BeforeAnswer(pc) && (Launched(pc) ==> p.id in g.permits)
    ensures var (g', pc') := StepSubmit(g, w, o, p, pc, a); Launched(pc') ==> p.id in g'.permits
  {}

  /** Nothing that follows looks for a permit to spend from. */
  predicate Seeks(pc: Pc) {
    match pc
    case Doing(_, next) => Seeks(next)
    case CountFill(_, _, next) => Seeks(next)
    case FindPermit(what, next) => what.Spending? || Seeks(next)
    case FindReservations(_, what, next) => what.Spending? || Seeks(next)
    case _ => false
  }

  lemma {:induction false} SeeksNothing(k: Account, n: Names, g: Shared, pc: Pc, own: bool)
    requires !Seeks(pc)
    ensures PcTied(k, n, g, pc, own)
    decreases pc
  {
    match pc
    case Doing(_, next) => SeeksNothing(k, n, g, next, own);
    case CountFill(_, _, next) => SeeksNothing(k, n, g, next, own);
    case FindPermit(_, next) => SeeksNothing(k, n, g, next, own);
    case FindReservations(_, _, next) => SeeksNothing(k, n, g, next, own);
    case _ =>
  }

  lemma {:induction false} SubmitSeeks(g: Shared, w: Worker, o: Order, p: Permit, pc: Pc, a: Answer)
    requires ExecutorSafety.BeforeAnswer(pc)
    ensures !Seeks(StepSubmit(g, w, o, p, pc, a).1)
  {}

  lemma {:induction false} StatusSeeks(held: bool, current: Lifecycle, answer: StatusAnswer)
    ensures !Seeks(AfterStatus(held, current, answer))
  {
    var pc := AfterStatus(held, current, answer);
    assert pc.Doing?;
    if pc.next.CountFill? {
      assert !Seeks(pc.next.next);
    } else if pc.next.FindPermit? {
      assert !Seeks(pc.next.next);
    } else {
      assert !Seeks(pc.next);
    }
  }

  lemma {:induction false} ReconcileSeeks(g: Shared, w: Worker, id: Id, pc: Pc, a: Answer)
    requires !Settling(pc)
    ensures SameBinding(g, StepReconcile(g, w, id, pc, a).0) && !Seeks(StepReconcile(g, w, id, pc, a).1)
  {
    if pc.Query? { StatusSeeks(pc.held, pc.current, a.status); }
  }

  lemma {:induction false} CancelSeeks(g: Shared, w: Worker, id: Id, pc: Pc, a: Answer)
    requires !Settling(pc)
    ensures SameBinding(g, StepCancel(g, w, id, pc, a).0) && !Seeks(StepCancel(g, w, id, pc, a).1)
  {
    var pc' := StepCancel(g, w, id, pc, a).1;
    if pc.SendCancel? { assert pc'.Doing? && (pc'.next.FindPermit? ==> !Seeks(pc'.next.next)); }
  }

  lemma {:induction false} SettleTied(k: Account, n: Names, g: Shared, t: Task, a: Answer)
    requires TablesTied(k, n, g) && TaskTied(k, n, g, t) && TaskOk(k, g, t) && Settling(t.pc)
    ensures var (g', pc') := StepSettle(g, t.worker, JobOrder(t.job), t.pc, a);
            && KeepsTied(k, n, g, g') && TaskTied(k, n, g', t.(pc := pc'))
            && StrayOf(k, g, ActOf(k, g, t, a)) == 0
  {
    var id, own := JobOrder(t.job), Own(k, t);
    var (g', pc') := StepSettle(g, t.worker, id, t.pc, a);
    SettleBinds(g, t.worker, id, t.pc, a);
    SameBindingTied(k, n, g, g');
    if id in g.ledger { assert RowTied(k, n, g, id); }
    FindsTied(k, n, g, t);
    assert PcTied(k, n, g, pc', own);
    PcStaysTied(k, n, g, g', pc', own);
    if t.job.SubmitJob? { ExecutorSafety.SettleStaysSettling(g, t.worker, id, t.pc, a); }
  }

  lemma {:induction false} FindsTied(k: Account, n: Names, g: Shared, t: Task)
    requires TablesTied(k, n, g) && TaskTied(k, n, g, t)
    ensures StrayOf(k, g, FindAct(g, JobOrder(t.job), t.pc, Own(k, t))) == 0
  {
    var act := FindAct(g, JobOrder(t.job), t.pc, Own(k, t));
    if t.pc.FindPermit? && act.Assigns? {
      if k.order in g.ledger { assert RowTied(k, n, g, k.order); }
      AssignedNowhere(k, act.cash);
    } else if act.Assigns? {
      NothingAstray(k, g, act.ids, act.cash, act.own);
    }
  }

  lemma {:induction false} BeforeAnswerTied(k: Account, n: Names, g: Shared, t: Task, a: Answer)
    requires TablesTied(k, n, g) && TaskTied(k, n, g, t) && t.job.SubmitJob? && ExecutorSafety.BeforeAnswer(t.pc)
    ensures var (g', t') := Step(g, t, a);
            KeepsTied(k, n, g, g') && TaskTied(k, n, g', t') && StrayOf(k, g, ActOf(k, g, t, a)) == 0
  {
    var o, p, own := t.job.order, t.job.permit, Own(k, t);
    var (g', pc') := StepSubmit(g, t.worker, o, p, t.pc, a);
    SubmitTied(k, n, g, t.worker, o, p, t.pc, a);
    SubmitClaims(g, t.worker, o, p, t.pc, a);
    SubmitSeeks(g, t.worker, o, p, t.pc, a);
    SeeksNothing(k, n, g', pc', own);
    AnswerNotAstray(k, n, g, t, a);
  }

  lemma {:induction false} AnswerNotAstray(k: Account, n: Names, g: Shared, t: Task, a: Answer)
    requires TaskTied(k, n, g, t) && t.job.SubmitJob? && ExecutorSafety.BeforeAnswer(t.pc)
    ensures StrayOf(k, g, ActOf(k, g, t, a)) == 0
  {
    if t.pc.Await? && a.placed.Acked? {
      NothingAstray(k, g, t.job.permit.reservationIds, AckCash(t.job.order, a.placed.result), Own(k, t));
    }
  }

  lemma {:induction false} AskingTied(k: Account, n: Names, g: Shared, t: Task, a: Answer)
    requires TablesTied(k, n, g) && TaskTied(k, n, g, t) && !t.job.SubmitJob? && !Settling(t.pc)
    ensures var (g', t') := Step(g, t, a);
            KeepsTied(k, n, g, g') && TaskTied(k, n, g', t') && StrayOf(k, g, ActOf(k, g, t, a)) == 0
  {
    var (g', t') := Step(g, t, a);
    match t.job {
      case ReconcileJob(id) => ReconcileSeeks(g, t.worker, id, t.pc, a);
      case CancelJob(id) => CancelSeeks(g, t.worker, id, t.pc, a);
    }
    SameBindingTied(k, n, g, g');
    SeeksNothing(k, n, g', t'.pc, Own(k, t));
  }

  lemma {:induction false} SettlesAlone(g: Shared, t: Task, a: Answer)
    requires Settling(t.pc)
    ensures var (g', pc') := StepSettle(g, t.worker, JobOrder(t.job), t.pc, a); Step(g, t, a) == (g', t.(pc := pc'))
  {}

  lemma {:induction false} StepTied(k: Account, n: Names, g: Shared, t: Task, a: Answer)
    requires TablesTied(k, n, g) && TaskTied(k, n, g, t) && TaskOk(k, g, t)
    ensures var (g', t') := Step(g, t, a);
            KeepsTied(k, n, g, g') && TaskTied(k, n, g', t') && StrayOf(k, g, ActOf(k, g, t, a)) == 0
  {
    if Settling(t.pc) {
      SettleTied(k, n, g, t, a);
      SettlesAlone(g, t, a);
    } else if t.job.SubmitJob? {
      BeforeAnswerTied(k, n, g, t, a);
    } else {
      AskingTied(k, n, g, t, a);
    }
  }

  lemma {:induction false} ApplyTied(k: Account, n: Names, w: World, e: Event)
    requires Ok(k, w) && Tied(k, n, w) && EventTied(k, n, e)
    ensures Tied(k, n, Apply(w, e)) && StrayAt(k, w, e) == 0
  {
    var w' := Apply(w, e);
    SameBindingTied(k, n, w.g, w.g);
    match e {
      case Advance(i, a) => if i < |w.tasks| {
        assert TaskOk(k, w.g, w.tasks[i]) && TaskTied(k, n, w.g, w.tasks[i]);
        StepTied(k, n, w.g, w.tasks[i], a);
      }
      case Issue(p) => SavedTied(k, n, w.g, p);
      case Start(_, _) =>
      case Restart(_) => SameBindingTied(k, n, w.g, w'.g);
      case ListOrder(_) => SameBindingTied(k, n, w.g, w'.g);
      case Bank(_) => SameBindingTied(k, n, w.g, w'.g);
    }
    forall j | 0 <= j < |w'.tasks| ensures TaskTied(k, n, w'.g, w'.tasks[j]) {
      if j < |w.tasks| && w'.tasks[j] == w.tasks[j] {
        assert TaskTied(k, n, w.g, w.tasks[j]);
        TaskStaysTied(k, n, w.g, w'.g, w.tasks[j]);
      }
    }
  }

  lemma {:induction false} RunTied(k: Account, n: Names, w: World, events: seq<Event>)
    requires Ok(k, w) && Tied(k, n, w) && EventsTied(k, n, events)
    ensures StrayIn(k, w, events) == 0
    decreases |events|
  {
    if events != [] {
      assert EventTied(k, n, events[0]);
      ApplyMoves(k, w, events[0]);
      ApplyTied(k, n, w, events[0]);
      RunTied(k, n, Apply(w, events[0]), events[1..]);
    }
  }

  /**
   When every permit the order is sent under names one reservation, however many permits there are, nothing goes
   astray; and if nothing was refused either, the total is right exactly when no acknowledged fill was seeded
   after a poll, or an earlier acknowledgement, had raised the counter.
   */
  lemma {:induction false} TiedTotalRightIff(k: Account, n: Names, events: seq<Event>)
    requires EventsTied(k, n, events) && AllEnded(Run(BEGIN, events).tasks)
    ensures StrayIn(k, BEGIN, events) == 0
    ensures RefusedIn(k, BEGIN, events) == 0 ==>
              (Consumed(k, Run(BEGIN, events).g.money) == HighestIn(k, BEGIN, events) <==> NothingLate(k, BEGIN, events))
  {
    TotalRightIff(k, events);
    RunTied(k, n, BEGIN, events);
    RunNonNegative(k, BEGIN, events);
  }
}
