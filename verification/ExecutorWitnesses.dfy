/**
 Runs of the executor, from empty tables and with the order recorded, in which what its comments promise does
 not come about: a live order whose cancel never reaches the venue, a live order filled when its reservation has
 expired, an order sent again that is never asked about, and a fill consumed twice although nothing crashed.
 */
module ExecutorWitnesses {
  import opened Wrappers
  import opened BigInt
  import opened ExecutorSteps
  import opened Executor
  import opened ExecutorFills
  import opened ExecutorSafety
  import Money

  // ----- a submit that reaches the venue -----

  /** The request is out under a permit claimed for it. */
  function Launch(g: Shared, w: Worker, o: Order, p: Permit, dbNow: int): Shared
    requires p.id in g.permits
  {
    Sent(Claimed(Leased(g, w, dbNow), p.id, o.id), w, o, p)
  }

  /** Nothing stands in the way of a submit under a stored, unused permit. */
  predicate Clear(g: Shared, w: Worker, o: Order, p: Permit, a: Answer) {
    && CanLease(g, w, a.dbNow)
    && (o.id in g.seen ==> g.seen[o.id].DefinitiveReject?)
    && Claimable(g, p.id, a.dbNow) && o.id in g.orders && g.permits[p.id].permit.leaseEpoch == w.epoch
    && CheckOrder(o, p, a).None?
  }

  lemma {:induction false} GetsFirstSave(g: Shared, w: Worker, o: Order, p: Permit, a: Answer)
    requires Clear(g, w, o, p, a)
    ensures Gets(g, Task(SubmitJob(o, p), w, Acquire), a,
                 Leased(g, w, a.dbNow), Task(SubmitJob(o, p), w, FirstSave))
  {
    var t, g1 := Task(SubmitJob(o, p), w, Acquire), Leased(g, w, a.dbNow);
    GetsHere(g, t, a);
    GetsNext(g, t, a, g, t);
    GetsNext(g, t, a, g1, t.(pc := Dedupe));
    if p.singleUse { GetsNext(g, t, a, g1, t.(pc := FirstClaimCheck)); }
  }

  lemma {:induction false} GetsSecondSave(g: Shared, w: Worker, o: Order, p: Permit, a: Answer)
    requires Claimable(g, p.id, a.dbNow) && g.permits[p.id].permit.leaseEpoch == w.epoch && CheckOrder(o, p, a).None?
    ensures Gets(g, Task(SubmitJob(o, p), w, FirstSave), a, g, Task(SubmitJob(o, p), w, SecondSave))
  {
    var t := Task(SubmitJob(o, p), w, FirstSave);
    GetsHere(g, t, a);
    GetsNext(g, t, a, g, t);
    GetsNext(g, t, a, g, t.(pc := Validate));
    if p.singleUse { GetsNext(g, t, a, g, t.(pc := SecondClaimCheck)); }
    GetsNext(g, t, a, g, t.(pc := Checks));
  }

  lemma {:induction false} GetsClaimed(g: Shared, w: Worker, o: Order, p: Permit, a: Answer)
    requires Claimable(g, p.id, a.dbNow) && o.id in g.orders
    ensures Gets(g, Task(SubmitJob(o, p), w, SecondSave), a,
                 Claimed(g, p.id, o.id), Task(SubmitJob(o, p), w, MarkSubmitting))
  {
    var t := Task(SubmitJob(o, p), w, SecondSave);
    GetsHere(g, t, a);
    GetsNext(g, t, a, g, t);
    GetsNext(g, t, a, g, t.(pc := Claim));
  }

  lemma {:induction false} GetsLaunched(g: Shared, w: Worker, o: Order, p: Permit, a: Answer)
    requires Clear(g, w, o, p, a)
    ensures Gets(g, Task(SubmitJob(o, p), w, Acquire), a,
                 Launch(g, w, o, p, a.dbNow), Task(SubmitJob(o, p), w, Await))
  {
    var t := Task(SubmitJob(o, p), w, Acquire);
    var g1 := Leased(g, w, a.dbNow);
    var g2 := Claimed(g1, p.id, o.id);
    GetsFirstSave(g, w, o, p, a);
    GetsSecondSave(g1, w, o, p, a);
    GetsTrans(g, t, a, g1, t.(pc := FirstSave), g1, t.(pc := SecondSave));
    GetsClaimed(g1, w, o, p, a);
    GetsTrans(g, t, a, g1, t.(pc := SecondSave), g2, t.(pc := MarkSubmitting));
    SendGets(g2, w, o, p, a);
    GetsTrans(g, t, a, g2, t.(pc := MarkSubmitting), Launch(g, w, o, p, a.dbNow), t.(pc := Await));
  }

  /** From the venue's answer to the end. */
  lemma {:induction false} GetsEnd(g: Shared, w: Worker, o: Order, p: Permit, a: Answer)
    ensures var after := AfterAnswer(o, p, a.placed);
            && after.Doing? && after.next.Done?
            && Gets(g, Task(SubmitJob(o, p), w, Await), a,
                    DoAll(g, w, o.id, after.todo, a), Task(SubmitJob(o, p), w, after.next))
  {
    GetsHere(g, Task(SubmitJob(o, p), w, Await), a);
    GetsAnswered(g, o, p, w, Await, g, a);
  }

  lemma {:induction false} GetsReconciled(g: Shared, w: Worker, id: Id, a: Answer)
    requires NeedsReconcile(g, id)
    ensures exists out :: Gets(g, Task(ReconcileJob(id), w, Acquire), a,
                               Reconciled(g, w, id, a), Task(ReconcileJob(id), w, Done(State(out))))
  {
    var held := CanLease(g, w, a.dbNow);
    var g1 := if held then Leased(g, w, a.dbNow) else g;
    var current := if id in g.seen then g.seen[id] else NotSeen;
    var t := Task(ReconcileJob(id), w, Acquire);
    var (g2, out) := Polled(g1, w, id, held, current, a);
    GetsQuery(g, id, w, a);
    GetsPolled(g1, id, w, held, current, a);
    GetsTrans(g, t, a, g1, t.(pc := Query(held, current)), g2, t.(pc := Done(State(out))));
    assert g2 == Reconciled(g, w, id, a);
  }

  // ----- a resolved order is out of sight -----

  /** A reconcile of the order that has not got past the look at its row, or is past the question. */
  predicate NotAsking(t: Task, id: Id) {
    t.job == ReconcileJob(id) ==>
      t.pc.Acquire? || t.pc.ReadSeen? || t.pc.FirstNeed? || t.pc.SecondNeed? || Settles(t.pc)
  }

  ghost predicate OutOfSight(w: World, id: Id) {
    && id in w.g.ledger && w.g.ledger[id].resolved
    && forall i :: 0 <= i < |w.tasks| ==> NotAsking(w.tasks[i], id)
  }

  function Questions(queries: seq<Id>, id: Id): nat { multiset(queries)[id] }

  predicate StaysResolved(g: Shared, g': Shared, id: Id) {
    && Questions(g'.queries, id) == Questions(g.queries, id)
    && (id in g.ledger && g.ledger[id].resolved ==> id in g'.ledger && g'.ledger[id].resolved)
  }

  lemma {:induction false} SettleStaysResolved(g: Shared, w: Worker, job: Id, pc: Pc, a: Answer, id: Id)
    ensures StaysResolved(g, StepSettle(g, w, job, pc, a).0, id)
  {}

  lemma {:induction false} SubmitStaysResolved(g: Shared, w: Worker, o: Order, p: Permit, pc: Pc, a: Answer, id: Id)
    ensures StaysResolved(g, StepSubmit(g, w, o, p, pc, a).0, id)
  {
    SettleStaysResolved(g, w, o.id, pc, a, id);
  }

  lemma {:induction false} StepStaysResolved(g: Shared, t: Task, a: Answer, id: Id)
    requires id in g.ledger && g.ledger[id].resolved && NotAsking(t, id)
    ensures var (g', t') := Step(g, t, a);
            StaysResolved(g, g', id) && NotAsking(t', id)
  {
    match t.job
    case SubmitJob(o, p) => SubmitStaysResolved(g, t.worker, o, p, t.pc, a, id);
    case ReconcileJob(other) => ReconcileStaysResolved(g, t.worker, other, t.pc, a, id);
    case CancelJob(other) => SettleStaysResolved(g, t.worker, other, t.pc, a, id);
  }

  lemma {:induction false} ReconcileStaysResolved(g: Shared, w: Worker, other: Id, pc: Pc, a: Answer, id: Id)
    requires id in g.ledger && g.ledger[id].resolved && NotAsking(Task(ReconcileJob(other), w, pc), id)
    ensures var (g', pc') := StepReconcile(g, w, other, pc, a);
            StaysResolved(g, g', id) && NotAsking(Task(ReconcileJob(other), w, pc'), id)
  {
    SettleStaysResolved(g, w, other, pc, a, id);
    if Settles(pc) { SettleStaysSettling(g, w, other, pc, a); }
  }

  lemma {:induction false} ApplyStaysOutOfSight(w: World, e: Event, id: Id)
    requires OutOfSight(w, id)
    ensures OutOfSight(Apply(w, e), id) && Questions(Apply(w, e).g.queries, id) == Questions(w.g.queries, id)
  {
    if e.Advance? && e.task < |w.tasks| {
      assert NotAsking(w.tasks[e.task], id);
      StepStaysResolved(w.g, w.tasks[e.task], e.answer, id);
    }
  }

  /** In no run does the venue hear another question about an order whose row is resolved. */
  lemma {:induction false} ResolvedNeverQueried(w: World, events: seq<Event>, id: Id)
    requires OutOfSight(w, id)
    ensures OutOfSight(Run(w, events), id) && Questions(Run(w, events).g.queries, id) == Questions(w.g.queries, id)
    decreases |events|
  {
    if events != [] {
      ApplyStaysOutOfSight(w, events[0], id);
      ResolvedNeverQueried(Apply(w, events[0]), events[1..], id);
    }
  }

  // ----- an order, two permits for it, and the answers of one afternoon -----

  const ORDER := Order("o", "m", Buy, 2_000_000, 500_000, "", Some(Limit))

  /** A permit as the money kernel mints it, with a reservation of its own. */
  const FIRST := Permit(
    "p", 1, ["r"], 2_000_000, 1_000_000, "m", Some(Buy), Some(500_000), Some(500_000), [Limit, PostOnly],
    Money.PERMIT_TTL_MS, true, false, true)
  const SECOND := FIRST.(id := "q", reservationIds := ["s"])
  const RESERVE := Money.ReserveRequest(
    Money.Key("a", Money.PUSD), 1_000_000, "d", "i", 1, 0, 2_000_000, "hash", "quote", "r", "p")
  const ANOTHER := RESERVE.(decision := "e", intent := "j", reservationId := "s", permitId := "q")

  const LIVE := OrderResult(Some(AcknowledgedStatus), Some(Live), 0, None)
  const HALF := OrderResult(Some(AcknowledgedStatus), Some(Partial), 1_000_000, Some(500_000))
  const REFUSED_CONNECTION := NotSent(Some(ErrorText(false, true)))

  lemma {:induction false} PermitsPass(p: Permit, a: Answer)
    requires p == FIRST || p == SECOND
    requires a.now <= Money.PERMIT_TTL_MS && a.mode.Normal?
    ensures CheckOrder(ORDER, p, a).None?
  {
    assert CashNeededFor(2_000_000, 500_000) == 1_000_000;
  }

  /** What a task does alone carries a reachable world on. */
  lemma {:induction false} Onward(w: World, i: nat, a: Answer, g': Shared, pc': Pc) returns (w': World)
    requires Reaches(BEGIN, w) && i < |w.tasks| && Gets(w.g, w.tasks[i], a, g', w.tasks[i].(pc := pc'))
    ensures Reaches(BEGIN, w') && w' == World(g', w.tasks[i := w.tasks[i].(pc := pc')])
  {
    CallsAreRuns(w, i, a, g', w.tasks[i].(pc := pc'));
    w' := World(g', w.tasks[i := w.tasks[i].(pc := pc')]);
    ReachesTrans(BEGIN, w, w');
  }

  lemma {:induction false} Began(w: World, job: Job) returns (w': World)
    requires Reaches(BEGIN, w)
    ensures Reaches(BEGIN, w') && w' == World(w.g, w.tasks + [Task(job, WORKER, Acquire)])
  {
    ReachesNext(BEGIN, w, Start(job, WORKER));
    w' := Apply(w, Start(job, WORKER));
  }

  /** A whole submit, from its start to its end. */
  lemma {:induction false} Submits(w: World, o: Order, p: Permit, a: Answer) returns (w': World)
    requires Reaches(BEGIN, w) && Clear(w.g, WORKER, o, p, a)
    ensures Reaches(BEGIN, w')
    ensures var after := AfterAnswer(o, p, a.placed);
            && after.Doing?
            && w'.g == DoAll(Launch(w.g, WORKER, o, p, a.dbNow), WORKER, o.id, after.todo, a)
            && w'.tasks == w.tasks + [Task(SubmitJob(o, p), WORKER, after.next)]
  {
    var w1 := Began(w, SubmitJob(o, p));
    var t := Task(SubmitJob(o, p), WORKER, Acquire);
    var g1 := Launch(w.g, WORKER, o, p, a.dbNow);
    GetsLaunched(w.g, WORKER, o, p, a);
    GetsEnd(g1, WORKER, o, p, a);
    var after := AfterAnswer(o, p, a.placed);
    var g2 := DoAll(g1, WORKER, o.id, after.todo, a);
    GetsTrans(w.g, t, a, g1, t.(pc := Await), g2, t.(pc := after.next));
    w' := Onward(w1, |w.tasks|, a, g2, after.next);
  }

  /** The answers come within the lease's time, or after it. */
  function Now(placed: PlaceAnswer): Answer { EARLY.(placed := placed) }

  function Later(placed: PlaceAnswer): Answer { LATE.(placed := placed) }

  /** Cash for both reservations. */
  lemma {:induction false} Credited() returns (w: World)
    ensures Reaches(BEGIN, w) && w.tasks == [] && w.g == BEGIN.g.(money := w.g.money)
    ensures w.g.money == Money.State(map[RESERVE.key := Money.Balance(2_000_000, 0)], map[], {})
  {
    assert Run(BEGIN, []) == BEGIN;
    ReachesNext(BEGIN, BEGIN, Bank(Money.DoCredit("a", 2_000_000, 8)));
    w := Apply(BEGIN, Bank(Money.DoCredit("a", 2_000_000, 8)));
  }

  lemma {:induction false} Reserves(w: World, r: Money.ReserveRequest) returns (w': World)
    requires Reaches(BEGIN, w) && Money.Otherwise(w.g.money, r) && !Money.ActiveIntent(w.g.money.rows, r.intent)
    ensures Reaches(BEGIN, w') && w'.tasks == w.tasks && w'.g == w.g.(money := w'.g.money)
    ensures w'.g.money.rows == w.g.money.rows[r.reservationId := Money.NewRow(r)]
    ensures w'.g.money.decisions == w.g.money.decisions + {r.decision}
    ensures w'.g.money.balances == Money.MoveToCommitted(w.g.money.balances, r.key, r.cash)
  {
    ReachesNext(BEGIN, w, Bank(Money.DoReserve(r)));
    w' := Apply(w, Bank(Money.DoReserve(r)));
    Money.ReservedIff(w.g.money, r);
  }

  lemma {:induction false} Reserved() returns (w: World)
    ensures Reaches(BEGIN, w) && w.tasks == [] && w.g == BEGIN.g.(money := w.g.money)
    ensures w.g.money.rows == map["r" := Money.NewRow(RESERVE), "s" := Money.NewRow(ANOTHER)]
  {
    var w0 := Credited();
    assert Money.ActiveRows(w0.g.money.rows, RESERVE.key) == {};
    var w1 := Reserves(w0, RESERVE);
    assert Money.ActiveRows(w1.g.money.rows, RESERVE.key) == {"r"};
    assert "r"[0] != "s"[0] && "d"[0] != "e"[0] && "i"[0] != "j"[0];
    w := Reserves(w1, ANOTHER);
  }

  /** Two reservations with their permits, and the order on record. */
  lemma {:induction false} SetUp() returns (w: World)
    ensures Reaches(BEGIN, w) && w.tasks == []
    ensures w.g.permits == map["p" := PermitRow(FIRST, false, None), "q" := PermitRow(SECOND, false, None)]
    ensures w.g == BEGIN.g.(permits := w.g.permits, money := w.g.money, orders := {ORDER.id})
    ensures w.g.money.rows == map["r" := Money.NewRow(RESERVE), "s" := Money.NewRow(ANOTHER)]
    ensures FIRST.id in w.g.permits && w.g.permits[FIRST.id] == PermitRow(FIRST, false, None)
    ensures "r" in w.g.money.rows && w.g.money.rows["r"] == Money.NewRow(RESERVE)
    ensures forall placed :: Clear(w.g, WORKER, ORDER, FIRST, Now(placed))
  {
    var w0 := Reserved();
    ReachesNext(BEGIN, w0, Issue(FIRST));
    var w1 := Apply(w0, Issue(FIRST));
    ReachesNext(BEGIN, w1, Issue(SECOND));
    var w2 := Apply(w1, Issue(SECOND));
    ReachesNext(BEGIN, w2, ListOrder(ORDER.id));
    w := Apply(w2, ListOrder(ORDER.id));
    assert "p"[0] != "q"[0];
    forall placed ensures Clear(w.g, WORKER, ORDER, FIRST, Now(placed)) { PermitsPass(FIRST, Now(placed)); }
  }

  // ----- a live order that cannot be cancelled -----

  /** The venue holds the order live; a cancel that lease and mode allowed ended without reaching it. */
  predicate LiveYetUncancelled(w: World, o: Order) {
    && |w.tasks| == 2
    && w.tasks[0].job.SubmitJob? && w.tasks[0].job.order == o && w.tasks[0].pc == Done(Submitted(LIVE, Acknowledged))
    && w.tasks[1] == Task(CancelJob(o.id), WORKER, Done(CancelThrew))
    && w.g.cancels == []
  }

  /** After a live acknowledgement nothing of the order's row is closed, and the lease can be had later. */
  lemma {:induction false} LiveEnds(g: Shared, p: Permit, a: Answer)
    requires p.id in g.permits && a.placed == Acked(LIVE)
    ensures var g1 := Launch(g, WORKER, ORDER, p, a.dbNow);
            var g2 := DoAll(g1, WORKER, ORDER.id, AfterAnswer(ORDER, p, a.placed).todo, a);
            && ORDER.id in g2.ledger
            && g2.ledger[ORDER.id].resolved == (ORDER.id in g.ledger && g.ledger[ORDER.id].resolved)
            && g2.calls == g.calls + [Call(ORDER, p, WORKER)] && g2.queries == g.queries && g2.cancels == g.cancels
            && CanLease(g2, WORKER, a.dbNow + LEASE_TTL + 1)
            && g2.money == g.money && g2.ledger[ORDER.id].permitId == p.id
            && p.id in g2.permits && g2.permits[p.id].permit == g.permits[p.id].permit
            && (p.id != "" ==> BoundTo(g2, ORDER.id) == g.permits[p.id].permit.reservationIds)
            && (ORDER.id !in g.ledger ==> g2.ledger[ORDER.id].fillCash == 0)
  {
    var g1 := Launch(g, WORKER, ORDER, p, a.dbNow);
    var todo := AfterAnswer(ORDER, p, a.placed).todo;
    AckRecordedBooks(g1, WORKER, ORDER, LIVE, a);
    AckSettledIs(g1, WORKER, ORDER, p, LIVE, a);
    DoAllKeepsRest(g1, WORKER, ORDER.id, todo, a);
    DoAllAsks(g1, WORKER, ORDER.id, todo, a);
  }

  lemma {:induction false} LiveOrderUncancelled()
    ensures exists events :: LiveYetUncancelled(Run(BEGIN, events), ORDER)
  {
    var a := Now(Acked(LIVE));
    var w0 := SetUp();
    var w1 := Submits(w0, ORDER, FIRST, a);
    LiveEnds(w0.g, FIRST, a);
    var job := CancelJob(ORDER.id);
    var w2 := Began(w1, job);
    GetsCancelled(w2.g, ORDER.id, WORKER, LATE);
    var w3 := Onward(w2, 1, LATE, Leased(w2.g, WORKER, LATE.dbNow), Done(CancelThrew));
    assert LiveYetUncancelled(w3, ORDER);
  }

  // ----- a fill of a live order that nothing backs any more -----

  /** The order is live at the venue and half filled; its reservation has expired, and the fill is counted but not consumed. */
  predicate FilledUnbacked(w: World, o: Order) {
    && |w.tasks| == 2
    && w.tasks[0].job.SubmitJob? && w.tasks[0].job.order == o && w.tasks[0].pc == Done(Submitted(LIVE, Acknowledged))
    && w.tasks[1].job == ReconcileJob(o.id) && w.tasks[1].pc.Done?
    && o.id in w.g.ledger && !w.g.ledger[o.id].resolved && w.g.ledger[o.id].fillCash == 500_000
    && "r" in w.g.money.rows && w.g.money.rows["r"].status.Expired? && w.g.money.rows["r"].consumed == 0
  }

  /** Submitted and live, on an untouched reservation. */
  lemma {:induction false} LiveAndBacked() returns (w: World)
    ensures Reaches(BEGIN, w) && |w.tasks| == 1
    ensures w.tasks[0].job == SubmitJob(ORDER, FIRST) && w.tasks[0].pc == Done(Submitted(LIVE, Acknowledged))
    ensures Bound(w.g, ORDER.id, "r") && !w.g.ledger[ORDER.id].resolved && w.g.ledger[ORDER.id].fillCash == 0
    ensures w.g.money.rows["r"] == Money.NewRow(RESERVE)
  {
    var a := Now(Acked(LIVE));
    var w0 := SetUp();
    w := Submits(w0, ORDER, FIRST, a);
    LiveEnds(w0.g, FIRST, a);
    assert BoundTo(w.g, ORDER.id) == ["r"] && ["r"][0] == "r";
  }

  /** Then the sweep expires the reservation. */
  lemma {:induction false} LiveThenExpired() returns (w: World)
    ensures Reaches(BEGIN, w) && |w.tasks| == 1
    ensures w.tasks[0].job == SubmitJob(ORDER, FIRST) && w.tasks[0].pc == Done(Submitted(LIVE, Acknowledged))
    ensures Bound(w.g, ORDER.id, "r") && !w.g.ledger[ORDER.id].resolved && w.g.ledger[ORDER.id].fillCash == 0
    ensures w.g.money.rows["r"] == Money.NewRow(RESERVE).(released := 1_000_000, status := Money.Expired)
  {
    var w0 := LiveAndBacked();
    var expire := Bank(Money.DoRelease("r", Money.ExpiredReason));
    ReachesNext(BEGIN, w0, expire);
    w := Apply(w0, expire);
    assert BoundTo(w.g, ORDER.id) == BoundTo(w0.g, ORDER.id);
  }

  lemma {:induction false} LiveOrderUnbacked()
    ensures exists events :: FilledUnbacked(Run(BEGIN, events), ORDER)
  {
    var b := LATE.(status := Found(HALF), bankNow := Money.PERMIT_TTL_MS + 1);
    assert CashReported(b.status) == CashNeededFor(1_000_000, 500_000) == 500_000;
    var w0 := LiveThenExpired();
    var w1 := Began(w0, ReconcileJob(ORDER.id));
    var g' := Reconciled(w1.g, WORKER, ORDER.id, b);
    PollAsks(w1.g, WORKER, ORDER.id, "r", b);
    GetsReconciled(w1.g, WORKER, ORDER.id, b);
    var out :| Gets(w1.g, w1.tasks[1], b, g', w1.tasks[1].(pc := Done(State(out))));
    var w2 := Onward(w1, 1, b, g', Done(State(out)));
    assert FilledUnbacked(w2, ORDER);
  }

  // ----- an order sent again and never asked about -----

  /** The venue has been sent the order twice and holds it live, and whatever happens next it is not asked about it. */
  ghost predicate ResentUnasked(events: seq<Event>, o: Order) {
    var w := Run(BEGIN, events);
    && w.g.calls == [Call(o, FIRST, WORKER), Call(o, SECOND, WORKER)]
    && |w.tasks| == 2 && w.tasks[1].job == SubmitJob(o, SECOND) && w.tasks[1].pc == Done(Submitted(LIVE, Acknowledged))
    && forall more :: o.id !in Run(BEGIN, events + more).g.queries
  }

  /** A request that provably was not sent: marked rejected, its row resolved. */
  lemma {:induction false} RejectEnds(g: Shared, p: Permit, a: Answer)
    requires p.id in g.permits && a.placed == REFUSED_CONNECTION
    ensures var g1 := Launch(g, WORKER, ORDER, p, a.dbNow);
            var g2 := DoAll(g1, WORKER, ORDER.id, AfterAnswer(ORDER, p, a.placed).todo, a);
            && ORDER.id in g2.seen && g2.seen[ORDER.id].DefinitiveReject?
            && ORDER.id in g2.ledger && g2.ledger[ORDER.id].resolved
            && g2.permits == g1.permits && g2.orders == g.orders
            && g2.calls == g.calls + [Call(ORDER, p, WORKER)] && g2.queries == g.queries
            && CanLease(g2, WORKER, a.dbNow + LEASE_TTL + 1)
  {
    var g1 := Launch(g, WORKER, ORDER, p, a.dbNow);
    var start := [Mark(DefinitiveReject), Update(DefinitiveReject), Resolve(REJECTED_RESULT)];
    var free := Releases(p.reservationIds, Money.RejectedReason);
    var todo := AfterAnswer(ORDER, p, a.placed).todo;
    assert todo == start + free + [Unlease, Unlease];
    DoAllKeepsRest(g1, WORKER, ORDER.id, todo, a);
    DoAllAsks(g1, WORKER, ORDER.id, todo, a);
    DoThree(g1, WORKER, ORDER.id, start[0], start[1], start[2], a);
    var g2 := DoAll(g1, WORKER, ORDER.id, start, a);
    DoAllAdds(g1, WORKER, ORDER.id, start + free, [Unlease, Unlease], a);
    DoAllAdds(g1, WORKER, ORDER.id, start, free, a);
    ReleasesAre(g2, WORKER, ORDER.id, p.reservationIds, Money.RejectedReason, a);
    DoTwo(DoAll(g1, WORKER, ORDER.id, start + free, a), WORKER, ORDER.id, Unlease, Unlease, a);
  }

  /** Sent, and rejected before it left. */
  lemma {:induction false} SentInVain() returns (w: World)
    ensures Reaches(BEGIN, w) && |w.tasks| == 1 && w.tasks[0].job == SubmitJob(ORDER, FIRST)
    ensures w.g.calls == [Call(ORDER, FIRST, WORKER)] && w.g.queries == []
    ensures ORDER.id in w.g.ledger && w.g.ledger[ORDER.id].resolved
    ensures Clear(w.g, WORKER, ORDER, SECOND, Later(Acked(LIVE)))
  {
    var a := Now(REFUSED_CONNECTION);
    var w0 := SetUp();
    w := Submits(w0, ORDER, FIRST, a);
    RejectEnds(w0.g, FIRST, a);
    assert "p"[0] != "q"[0];
    assert w.g.permits["q"] == PermitRow(SECOND, false, None);
    PermitsPass(SECOND, Later(Acked(LIVE)));
  }

  /** Sent again under the other permit, and live. */
  lemma {:induction false} SentAgain() returns (w: World)
    ensures Reaches(BEGIN, w) && OutOfSight(w, ORDER.id) && w.g.queries == []
    ensures w.g.calls == [Call(ORDER, FIRST, WORKER), Call(ORDER, SECOND, WORKER)]
    ensures |w.tasks| == 2 && w.tasks[1] == Task(SubmitJob(ORDER, SECOND), WORKER, Done(Submitted(LIVE, Acknowledged)))
  {
    var b := Later(Acked(LIVE));
    var w1 := SentInVain();
    w := Submits(w1, ORDER, SECOND, b);
    LiveEnds(w1.g, SECOND, b);
  }

  lemma {:induction false} ResentGoesUnasked()
    ensures exists events :: ResentUnasked(events, ORDER)
  {
    var w := SentAgain();
    var events :| Run(BEGIN, events) == w;
    forall more ensures ORDER.id !in Run(BEGIN, events + more).g.queries {
      RunAppend(BEGIN, events, more);
      ResolvedNeverQueried(w, more, ORDER.id);
    }
    assert ResentUnasked(events, ORDER);
  }

  // ----- a fill consumed twice without a crash -----

  /**
   Submit and reconcile have both ended, each heard that half the order was filled, and the reservation
   has been consumed from twice for the one fill.
   */
  predicate ConsumedTwice(w: World, o: Order) {
    && |w.tasks| == 2
    && w.tasks[0].job.SubmitJob? && w.tasks[0].job.order == o && w.tasks[0].pc == Done(Submitted(HALF, Acknowledged))
    && w.tasks[1].job == ReconcileJob(o.id) && w.tasks[1].pc.Done?
    && o.id in w.g.ledger && w.g.ledger[o.id].fillCash == AckCash(o, HALF) == 500_000
    && "r" in w.g.money.rows && w.g.money.rows["r"].consumed == 2 * AckCash(o, HALF)
  }

  /** An acknowledged fill on a reservation already tracked: consumed in full where there is room, whatever the counter says. */
  lemma {:induction false} AckConsumesAgain(g: Shared, w: Worker, o: Order, p: Permit, r: OrderResult, rid: Id, a: Answer)
    requires Tracked(g, o.id, rid) && Once(p.reservationIds, rid) && r.filled > 0
    requires CanConsume(g.money.rows[rid], AckCash(o, r), a.bankNow)
    ensures var g' := AckSettled(g, w, o, p, r, a);
            && o.id in g'.ledger && g'.ledger[o.id].fillCash == Max(g.ledger[o.id].fillCash, AckCash(o, r))
            && rid in g'.money.rows && g'.money.rows[rid].consumed == g.money.rows[rid].consumed + AckCash(o, r)
  {
    AckRecordedBooks(g, w, o, r, a);
    var g1 := AckRecorded(g, w, o, r, a);
    SpendsAre(g1, w, o.id, p.reservationIds, AckCash(o, r), a);
    SpendsHere(g1, w, o.id, p.reservationIds, rid, AckCash(o, r), a);
    AckSettledIs(g, w, o, p, r, a);
  }

  /** The order is out, and a reconcile of it begins. */
  lemma {:induction false} Waiting(a: Answer) returns (w: World)
    requires a == Now(Acked(HALF))
    ensures Reaches(BEGIN, w)
    ensures w.tasks == [Task(SubmitJob(ORDER, FIRST), WORKER, Await), Task(ReconcileJob(ORDER.id), WORKER, Acquire)]
    ensures Tracked(w.g, ORDER.id, "r") && BoundTo(w.g, ORDER.id) == ["r"]
    ensures w.g.ledger[ORDER.id].fillCash == 0 && w.g.money.rows["r"] == Money.NewRow(RESERVE)
  {
    var w0 := SetUp();
    PermitsPass(FIRST, a);
    var w1 := Began(w0, SubmitJob(ORDER, FIRST));
    GetsLaunched(w1.g, WORKER, ORDER, FIRST, a);
    var w2 := Onward(w1, 0, a, Launch(w1.g, WORKER, ORDER, FIRST, a.dbNow), Await);
    w := Began(w2, ReconcileJob(ORDER.id));
    assert ["r"][0] == "r";
  }

  /** The reconcile hears of the fill, counts it and consumes it, and ends. */
  lemma {:induction false} HearsHalf(w: World, b: Answer) returns (w': World, out: Lifecycle)
    requires Reaches(BEGIN, w) && b == Now(Acked(HALF)).(status := Found(HALF))
    requires |w.tasks| == 2 && w.tasks[1] == Task(ReconcileJob(ORDER.id), WORKER, Acquire)
    requires Tracked(w.g, ORDER.id, "r") && w.g.ledger[ORDER.id].fillCash == 0
    requires w.g.money.rows["r"] == Money.NewRow(RESERVE)
    ensures Reaches(BEGIN, w') && w'.tasks == [w.tasks[0], w.tasks[1].(pc := Done(State(out)))]
    ensures Tracked(w'.g, ORDER.id, "r") && w'.g.ledger[ORDER.id].fillCash == 500_000
    ensures var r := w'.g.money.rows["r"]; r.consumed == 500_000 && r.amount == 1_000_000 && r.expiresAt == 60_000
  {
    assert CashReported(b.status) == CashNeededFor(1_000_000, 500_000) == 500_000;
    var g' := Reconciled(w.g, WORKER, ORDER.id, b);
    PollHears(w.g, WORKER, ORDER.id, "r", b);
    GetsReconciled(w.g, WORKER, ORDER.id, b);
    out :| Gets(w.g, w.tasks[1], b, g', w.tasks[1].(pc := Done(State(out))));
    w' := Onward(w, 1, b, g', Done(State(out)));
  }

  /** Then the submit's own answer arrives. */
  lemma {:induction false} AcksHalf(w: World, a: Answer) returns (w': World)
    requires Reaches(BEGIN, w) && a == Now(Acked(HALF))
    requires |w.tasks| == 2 && w.tasks[0] == Task(SubmitJob(ORDER, FIRST), WORKER, Await)
    requires Tracked(w.g, ORDER.id, "r") && w.g.ledger[ORDER.id].fillCash == 500_000
    requires var r := w.g.money.rows["r"]; r.consumed == 500_000 && r.amount == 1_000_000 && r.expiresAt == 60_000
    ensures Reaches(BEGIN, w') && w'.tasks == [w.tasks[0].(pc := Done(Submitted(HALF, Acknowledged))), w.tasks[1]]
    ensures ORDER.id in w'.g.ledger && w'.g.ledger[ORDER.id].fillCash == 500_000
    ensures "r" in w'.g.money.rows && w'.g.money.rows["r"].consumed == 1_000_000
  {
    assert AckCash(ORDER, HALF) == CashNeededFor(1_000_000, 500_000) == 500_000;
    assert ["r"][0] == "r";
    GetsEnd(w.g, WORKER, ORDER, FIRST, a);
    AckConsumesAgain(w.g, WORKER, ORDER, FIRST, HALF, "r", a);
    w' := Onward(w, 0, a, AckSettled(w.g, WORKER, ORDER, FIRST, HALF, a), Done(Submitted(HALF, Acknowledged)));
  }

  lemma {:induction false} FillConsumedTwice()
    ensures exists events :: ConsumedTwice(Run(BEGIN, events), ORDER)
  {
    var a := Now(Acked(HALF));
    var w0 := Waiting(a);
    var w1, out := HearsHalf(w0, a.(status := Found(HALF)));
    var w2 := AcksHalf(w1, a);
    assert AckCash(ORDER, HALF) == CashNeededFor(1_000_000, 500_000) == 500_000;
    assert ConsumedTwice(w2, ORDER);
  }
}
