/**
 What every interleaving of submits, reconciles and cancels keeps, with processes dying between
 any two awaits and restarting with any seen log: a permit pays for at most one `placeOrder`, and
 by the time it does the permit is claimed, the order is in the recovery ledger, the permit's
 stored lease epoch is the worker's, and the order is within what the permit authorises.
 */
module ExecutorSafety {
  import opened Wrappers
  import opened BigInt
  import opened ExecutorSteps
  import Money

  // ----- the invariant -----

  predicate PastValidate(pc: Pc) { pc.SecondClaimCheck? || pc.Checks? || PastChecks(pc) }

  predicate PastChecks(pc: Pc) { pc.SecondSave? || pc.Claim? || PastClaim(pc) }

  /** The permit is claimed and the request has not been made. */
  predicate PastClaim(pc: Pc) { pc.MarkSubmitting? || pc.RecordSubmitting? || pc.Place? }

  predicate ClaimedBy(g: Shared, permitId: Id, orderId: Id) {
    permitId in g.permits && g.permits[permitId].used && g.permits[permitId].claimedBy == Some(orderId)
  }

  predicate Fenced(g: Shared, permitId: Id, epoch: int) {
    permitId in g.permits && g.permits[permitId].permit.leaseEpoch == epoch
  }

  predicate CallOk(g: Shared, c: Call) {
    && ClaimedBy(g, c.permit.id, c.order.id)
    && c.order.id in g.ledger && c.order.id in g.orders
    && Fenced(g, c.permit.id, c.worker.epoch)
    && Allows(c.permit, c.order)
  }

  predicate Armed(t: Task) { t.job.SubmitJob? && PastClaim(t.pc) }

  /** A settlement ends; it never leads back into the submit path. */
  predicate Settles(pc: Pc) {
    match pc
    case Doing(_, next) => Settles(next)
    case CountFill(_, _, next) => Settles(next)
    case FindPermit(_, next) => Settles(next)
    case FindReservations(_, _, next) => Settles(next)
    case Done(_) => true
    case _ => false
  }

  predicate BeforeAnswer(pc: Pc) {
    pc.Acquire? || pc.Dedupe? || pc.FirstClaimCheck? || pc.FirstSave? || pc.Validate? || PastValidate(pc) || pc.Await?
  }

  predicate SubmitOk(g: Shared, w: Worker, o: Order, p: Permit, pc: Pc) {
    && (BeforeAnswer(pc) || Settles(pc))
    && (PastValidate(pc) ==> Fenced(g, p.id, w.epoch))
    && (PastChecks(pc) ==> Allows(p, o))
    && (PastClaim(pc) ==> ClaimedBy(g, p.id, o.id) && o.id in g.ledger && o.id in g.orders)
  }

  predicate TaskOk(g: Shared, t: Task) {
    t.job.SubmitJob? ==> SubmitOk(g, t.worker, t.job.order, t.job.permit, t.pc)
  }

  predicate NotCalled(calls: seq<Call>, permitId: Id) {
    forall i :: 0 <= i < |calls| ==> calls[i].permit.id != permitId
  }

  predicate DistinctPermits(calls: seq<Call>) {
    forall i, j :: 0 <= i < j < |calls| ==> calls[i].permit.id != calls[j].permit.id
  }

  ghost predicate CallsOk(g: Shared) { forall i :: 0 <= i < |g.calls| ==> CallOk(g, g.calls[i]) }

  ghost predicate TasksOk(g: Shared, ts: seq<Task>) { forall i :: 0 <= i < |ts| ==> TaskOk(g, ts[i]) }

  ghost predicate ArmedUncalled(calls: seq<Call>, ts: seq<Task>) {
    forall i :: 0 <= i < |ts| && Armed(ts[i]) ==> NotCalled(calls, ts[i].job.permit.id)
  }

  ghost predicate ArmedApart(ts: seq<Task>) {
    forall i, j :: 0 <= i < j < |ts| && Armed(ts[i]) && Armed(ts[j]) ==> ts[i].job.permit.id != ts[j].job.permit.id
  }

  ghost predicate Safe(w: World) {
    && CallsOk(w.g) && DistinctPermits(w.g.calls)
    && TasksOk(w.g, w.tasks) && ArmedUncalled(w.g.calls, w.tasks) && ArmedApart(w.tasks)
  }

  // ----- what one step may do to the tables -----

  /** Permits stay, keep their content, and stay claimed by whom they are claimed; ledger rows stay. */
  ghost predicate Grows(g: Shared, g': Shared) {
    && (forall p :: p in g.permits ==>
          && p in g'.permits
          && g'.permits[p].permit == g.permits[p].permit
          && (g.permits[p].used ==> g'.permits[p] == g.permits[p]))
    && (forall o :: o in g.ledger ==> o in g'.ledger)
    && g.orders <= g'.orders
  }

  lemma {:induction false} GrowsKeepsCalls(g: Shared, g': Shared)
    requires Grows(g, g') && CallsOk(g) && g'.calls == g.calls
    ensures CallsOk(g')
  {
    forall i | 0 <= i < |g'.calls| ensures CallOk(g', g'.calls[i]) {
      assert CallOk(g, g.calls[i]);
    }
  }

  lemma {:induction false} GrowsKeepsTasks(g: Shared, g': Shared, ts: seq<Task>)
    requires Grows(g, g') && TasksOk(g, ts)
    ensures TasksOk(g', ts)
  {
    forall i | 0 <= i < |ts| ensures TaskOk(g', ts[i]) {
      assert TaskOk(g, ts[i]);
    }
  }

  lemma {:induction false} DoGrows(g: Shared, w: Worker, id: Id, action: Action, a: Answer)
    ensures Grows(g, Do(g, w, id, action, a)) && Do(g, w, id, action, a).calls == g.calls
  {}

  lemma {:induction false} SettleGrows(g: Shared, w: Worker, id: Id, pc: Pc, a: Answer)
    ensures var (g', pc') := StepSettle(g, w, id, pc, a);
            Grows(g, g') && g'.calls == g.calls
  {
    if pc.Doing? && pc.todo != [] { DoGrows(g, w, id, pc.todo[0], a); }
  }

  lemma {:induction false} ReconcileGrows(g: Shared, w: Worker, id: Id, pc: Pc, a: Answer)
    ensures var (g', pc') := StepReconcile(g, w, id, pc, a);
            Grows(g, g') && g'.calls == g.calls
  {
    SettleGrows(g, w, id, pc, a);
  }

  lemma {:induction false} CancelGrows(g: Shared, w: Worker, id: Id, pc: Pc, a: Answer)
    ensures var (g', pc') := StepCancel(g, w, id, pc, a);
            Grows(g, g') && g'.calls == g.calls
  {
    SettleGrows(g, w, id, pc, a);
  }

  lemma {:induction false} SubmitCalls(g: Shared, w: Worker, o: Order, p: Permit, pc: Pc, a: Answer)
    ensures StepSubmit(g, w, o, p, pc, a).0.calls == (if pc.Place? then g.calls + [Call(o, p, w)] else g.calls)
  {
    SettleGrows(g, w, o.id, pc, a);
  }

  lemma {:induction false} ClaimGrows(g: Shared, permitId: Id, orderId: Id, dbNow: int)
    requires Claimable(g, permitId, dbNow)
    ensures Grows(g, Claimed(g, permitId, orderId))
  {}

  lemma {:induction false} SaveGrows(g: Shared, p: Permit)
    ensures Grows(g, g.(permits := Saved(g.permits, p)))
  {}

  lemma {:induction false} RecordGrows(g: Shared, orderId: Id, permitId: Id)
    ensures Grows(g, g.(ledger := Recorded(g.ledger, orderId, permitId)))
  {}

  lemma {:induction false} SameTablesGrow(g: Shared, g': Shared)
    requires g'.permits == g.permits && g'.ledger == g.ledger && g'.orders == g.orders
    ensures Grows(g, g')
  {}

  /** The tables a submit leaves alone before it settles, but for the saves, the claim and the record. */
  lemma {:induction false} SubmitTables(g: Shared, w: Worker, o: Order, p: Permit, pc: Pc, a: Answer)
    requires BeforeAnswer(pc) && !pc.FirstSave? && !pc.SecondSave? && !pc.Claim? && !pc.RecordSubmitting?
    ensures var g' := StepSubmit(g, w, o, p, pc, a).0; g'.permits == g.permits && g'.ledger == g.ledger && g'.orders == g.orders
  {}

  lemma {:induction false} SubmitKeeps(g: Shared, w: Worker, o: Order, p: Permit, pc: Pc, a: Answer)
    ensures Grows(g, StepSubmit(g, w, o, p, pc, a).0)
  {
    if pc.Claim? {
      SameTablesGrow(g, g);
      if Claimable(g, p.id, a.dbNow) { ClaimGrows(g, p.id, o.id, a.dbNow); }
    } else if pc.FirstSave? || pc.SecondSave? {
      SaveGrows(g, p);
    } else if pc.RecordSubmitting? {
      RecordGrows(g, o.id, p.id);
    } else if BeforeAnswer(pc) {
      SubmitTables(g, w, o, p, pc, a);
      SameTablesGrow(g, StepSubmit(g, w, o, p, pc, a).0);
    } else {
      SettleGrows(g, w, o.id, pc, a);
    }
  }

  /** Only a submit that stands at `Place` makes a request, and only one at `Claim` arms itself. */
  lemma {:induction false} SubmitGrows(g: Shared, w: Worker, o: Order, p: Permit, pc: Pc, a: Answer)
    ensures var (g', pc') := StepSubmit(g, w, o, p, pc, a);
            && Grows(g, g')
            && g'.calls == (if pc.Place? then g.calls + [Call(o, p, w)] else g.calls)
  {
    SubmitKeeps(g, w, o, p, pc, a);
    SubmitCalls(g, w, o, p, pc, a);
  }

  // ----- one step of a submit -----

  lemma {:induction false} AnswerSettles(o: Order, p: Permit, answer: PlaceAnswer)
    ensures Settles(AfterAnswer(o, p, answer))
  {}

  lemma {:induction false} SettleStaysSettling(g: Shared, w: Worker, id: Id, pc: Pc, a: Answer)
    requires Settles(pc)
    ensures Settles(StepSettle(g, w, id, pc, a).1)
  {}

  ghost predicate StaysOk(g: Shared, w: Worker, o: Order, p: Permit, pc: Pc, a: Answer) {
    var (g', pc') := StepSubmit(g, w, o, p, pc, a);
    && SubmitOk(g', w, o, p, pc')
    && (PastClaim(pc') && !PastClaim(pc) ==> Claimable(g, p.id, a.dbNow))
    && (pc.Place? ==> pc'.Await?)
  }

  lemma {:induction false} ShapeStays(g: Shared, w: Worker, o: Order, p: Permit, pc: Pc, a: Answer)
    requires BeforeAnswer(pc)
    ensures var pc' := StepSubmit(g, w, o, p, pc, a).1; BeforeAnswer(pc') || Settles(pc')
    ensures pc.Place? ==> StepSubmit(g, w, o, p, pc, a).1.Await?
  {
    if pc.Await? {
      AnswerSettles(o, p, a.placed);
    } else {
      assert forall outcome, early :: Settles(Refuse(outcome, early));
    }
  }

  /** The stored permit's epoch is compared at `Validate`, and nowhere else can that stage be reached. */
  lemma {:induction false} FenceStays(g: Shared, w: Worker, o: Order, p: Permit, pc: Pc, a: Answer)
    requires BeforeAnswer(pc) && PastValidate(StepSubmit(g, w, o, p, pc, a).1)
    ensures PastValidate(pc) || Fenced(g, p.id, w.epoch)
  {}

  lemma {:induction false} ChecksStay(g: Shared, w: Worker, o: Order, p: Permit, pc: Pc, a: Answer)
    requires BeforeAnswer(pc) && PastChecks(StepSubmit(g, w, o, p, pc, a).1)
    ensures PastChecks(pc) || CheckOrder(o, p, a).None?
  {}

  lemma {:induction false} ClaimStays(g: Shared, w: Worker, o: Order, p: Permit, pc: Pc, a: Answer)
    requires BeforeAnswer(pc) && PastClaim(StepSubmit(g, w, o, p, pc, a).1)
    ensures var g' := StepSubmit(g, w, o, p, pc, a).0;
            PastClaim(pc) || (Claimable(g, p.id, a.dbNow) && ClaimedBy(g', p.id, o.id) && o.id in g'.ledger && o.id in g'.orders)
  {}

  lemma {:induction false} BeforeAnswerStaysOk(g: Shared, w: Worker, o: Order, p: Permit, pc: Pc, a: Answer)
    requires SubmitOk(g, w, o, p, pc) && BeforeAnswer(pc)
    ensures StaysOk(g, w, o, p, pc, a)
  {
    var (g', pc') := StepSubmit(g, w, o, p, pc, a);
    SubmitGrows(g, w, o, p, pc, a);
    ShapeStays(g, w, o, p, pc, a);
    if PastValidate(pc') { FenceStays(g, w, o, p, pc, a); }
    if PastChecks(pc') { ChecksStay(g, w, o, p, pc, a); }
    if PastClaim(pc') { ClaimStays(g, w, o, p, pc, a); }
  }

  lemma {:induction false} SubmitStaysOk(g: Shared, w: Worker, o: Order, p: Permit, pc: Pc, a: Answer)
    requires SubmitOk(g, w, o, p, pc)
    ensures StaysOk(g, w, o, p, pc, a)
  {
    if BeforeAnswer(pc) {
      BeforeAnswerStaysOk(g, w, o, p, pc, a);
    } else {
      SettleStaysSettling(g, w, o.id, pc, a);
    }
  }

  // ----- one step of the world -----

  lemma {:induction false} StepGrows(g: Shared, t: Task, a: Answer)
    ensures var (g', t') := Step(g, t, a);
            && Grows(g, g') && t'.job == t.job && t'.worker == t.worker
            && g'.calls == (if t.job.SubmitJob? && t.pc.Place? then g.calls + [Call(t.job.order, t.job.permit, t.worker)]
                            else g.calls)
  {
    match t.job
    case SubmitJob(o, p) => SubmitGrows(g, t.worker, o, p, t.pc, a);
    case ReconcileJob(id) => ReconcileGrows(g, t.worker, id, t.pc, a);
    case CancelJob(id) => CancelGrows(g, t.worker, id, t.pc, a);
  }

  lemma {:induction false} StepStaysOk(g: Shared, t: Task, a: Answer)
    requires TaskOk(g, t)
    ensures var (g', t') := Step(g, t, a);
            && TaskOk(g', t')
            && (Armed(t') && !Armed(t) ==> Claimable(g, t.job.permit.id, a.dbNow))
            && (t.job.SubmitJob? && t.pc.Place? ==> !Armed(t'))
  {
    if t.job.SubmitJob? {
      SubmitStaysOk(g, t.worker, t.job.order, t.job.permit, t.pc, a);
    }
  }

  lemma {:induction false} TasksStayOk(g: Shared, g': Shared, ts: seq<Task>, i: nat, t': Task)
    requires i < |ts| && Grows(g, g') && TasksOk(g, ts) && TaskOk(g', t')
    ensures TasksOk(g', ts[i := t'])
  {
    var ts' := ts[i := t'];
    forall j | 0 <= j < |ts'| ensures TaskOk(g', ts'[j]) {
      assert TaskOk(g, ts[j]);
    }
  }

  /** A permit that can still be claimed has paid for no call and armed no task. */
  lemma {:induction false} ClaimableIsFresh(w: World, permitId: Id, dbNow: int)
    requires CallsOk(w.g) && TasksOk(w.g, w.tasks) && Claimable(w.g, permitId, dbNow)
    ensures NotCalled(w.g.calls, permitId)
    ensures forall i :: 0 <= i < |w.tasks| && Armed(w.tasks[i]) ==> w.tasks[i].job.permit.id != permitId
  {
    forall i | 0 <= i < |w.g.calls| ensures w.g.calls[i].permit.id != permitId {
      assert CallOk(w.g, w.g.calls[i]);
    }
    forall i | 0 <= i < |w.tasks| && Armed(w.tasks[i]) ensures w.tasks[i].job.permit.id != permitId {
      assert TaskOk(w.g, w.tasks[i]);
    }
  }

  /** A step that makes no request. */
  lemma {:induction false} QuietKeepsApart(w: World, i: nat, t': Task, dbNow: int)
    requires Safe(w) && i < |w.tasks| && t'.job == w.tasks[i].job
    requires Armed(t') && !Armed(w.tasks[i]) ==> Claimable(w.g, t'.job.permit.id, dbNow)
    ensures ArmedUncalled(w.g.calls, w.tasks[i := t']) && ArmedApart(w.tasks[i := t'])
  {
    if Armed(t') && !Armed(w.tasks[i]) {
      ClaimableIsFresh(w, t'.job.permit.id, dbNow);
    }
  }

  /** The step that makes one. */
  lemma {:induction false} PlaceKeepsApart(w: World, i: nat, t': Task)
    requires Safe(w) && i < |w.tasks| && Armed(w.tasks[i]) && !Armed(t')
    ensures var t := w.tasks[i]; var calls' := w.g.calls + [Call(t.job.order, t.job.permit, t.worker)];
            && DistinctPermits(calls')
            && ArmedUncalled(calls', w.tasks[i := t']) && ArmedApart(w.tasks[i := t'])
  {}

  lemma {:induction false} PlaceKeepsCalls(g: Shared, t: Task)
    requires CallsOk(g) && TaskOk(g, t) && t.job.SubmitJob? && t.pc.Place?
    ensures CallsOk(g.(calls := g.calls + [Call(t.job.order, t.job.permit, t.worker)]))
  {
    var g' := g.(calls := g.calls + [Call(t.job.order, t.job.permit, t.worker)]);
    forall i | 0 <= i < |g'.calls| ensures CallOk(g', g'.calls[i]) {
      if i < |g.calls| { assert CallOk(g, g.calls[i]); }
    }
  }

  lemma {:induction false} AdvanceSafe(w: World, i: nat, a: Answer)
    requires Safe(w) && i < |w.tasks|
    ensures Safe(Apply(w, Advance(i, a)))
  {
    var t := w.tasks[i];
    var (g', t') := Step(w.g, t, a);
    assert TaskOk(w.g, t);
    StepGrows(w.g, t, a);
    StepStaysOk(w.g, t, a);
    TasksStayOk(w.g, g', w.tasks, i, t');
    if t.job.SubmitJob? && t.pc.Place? {
      PlaceKeepsApart(w, i, t');
      PlaceKeepsCalls(w.g, t);
    } else {
      QuietKeepsApart(w, i, t', a.dbNow);
      GrowsKeepsCalls(w.g, g');
    }
  }

  lemma {:induction false} StartSafe(w: World, job: Job, worker: Worker)
    requires Safe(w)
    ensures Safe(Apply(w, Start(job, worker)))
  {
    var ts := w.tasks + [Task(job, worker, Acquire)];
    forall i | 0 <= i < |ts| ensures TaskOk(w.g, ts[i]) {
      if i < |w.tasks| { assert TaskOk(w.g, w.tasks[i]); }
    }
  }

  lemma {:induction false} OutsideSafe(w: World, e: Event)
    requires Safe(w) && (e.Restart? || e.Issue? || e.ListOrder? || e.Bank?)
    ensures Safe(Apply(w, e))
  {
    var w' := Apply(w, e);
    assert Grows(w.g, w'.g);
    GrowsKeepsCalls(w.g, w'.g);
    GrowsKeepsTasks(w.g, w'.g, w.tasks);
  }

  lemma {:induction false} ApplySafe(w: World, e: Event)
    requires Safe(w)
    ensures Safe(Apply(w, e))
  {
    match e
    case Start(job, worker) => StartSafe(w, job, worker);
    case Advance(i, a) => if i < |w.tasks| { AdvanceSafe(w, i, a); }
    case _ => OutsideSafe(w, e);
  }

  lemma {:induction false} RunSafe(w: World, events: seq<Event>)
    requires Safe(w)
    ensures Safe(Run(w, events))
    decreases |events|
  {
    if events != [] {
      ApplySafe(w, events[0]);
      RunSafe(Apply(w, events[0]), events[1..]);
    }
  }

  /**
   At-most-once submission, in every interleaving: no two requests are made under one permit, and
   each request was made under a permit claimed for that very order, fenced by the worker's own
   epoch, for an order the permit authorises and the recovery ledger knows.
   */
  lemma {:induction false} AtMostOncePerPermit(events: seq<Event>)
    ensures var g := Run(BEGIN, events).g; DistinctPermits(g.calls) && CallsOk(g)
  {
    RunSafe(BEGIN, events);
  }

  lemma {:induction false} StepKeepsOrders(g: Shared, t: Task, a: Answer)
    ensures Step(g, t, a).0.orders == g.orders
  {}

  lemma {:induction false} RunLists(w: World, events: seq<Event>, id: Id)
    requires id in Run(w, events).g.orders
    ensures id in w.g.orders || ListOrder(id) in events
    decreases |events|
  {
    if events != [] {
      var w' := Apply(w, events[0]);
      RunLists(w', events[1..], id);
      if events[0].Advance? && events[0].task < |w.tasks| {
        StepKeepsOrders(w.g, w.tasks[events[0].task], events[0].answer);
      }
    }
  }

  /**
   The claim's ledger row refers to the order's own row, which none of these operations writes: an order reaches
   the venue only if something else has recorded it.
   */
  lemma {:induction false} UnlistedNeverSent(events: seq<Event>, i: nat)
    requires i < |Run(BEGIN, events).g.calls|
    ensures ListOrder(Run(BEGIN, events).g.calls[i].order.id) in events
  {
    AtMostOncePerPermit(events);
    var g := Run(BEGIN, events).g;
    assert CallOk(g, g.calls[i]);
    RunLists(BEGIN, events, g.calls[i].order.id);
  }

  ghost predicate Twice(calls: seq<Call>, o: Order) {
    exists i, j :: 0 <= i < j < |calls| && calls[i].order == o && calls[j].order == o
  }

  lemma {:induction false} BoundOrderOnce(events: seq<Event>, o: Order)
    requires o.permitId != ""
    ensures !Twice(Run(BEGIN, events).g.calls, o)
  {
    AtMostOncePerPermit(events);
    var g := Run(BEGIN, events).g;
    forall i | 0 <= i < |g.calls| && g.calls[i].order == o ensures g.calls[i].permit.id == o.permitId {
      assert CallOk(g, g.calls[i]);
    }
  }

  // ----- an order that names no permit -----

  lemma {:induction false} RunAppend(w: World, es: seq<Event>, fs: seq<Event>)
    ensures Run(w, es + fs) == Run(Run(w, es), fs)
    decreases |es|
  {
    if es == [] {
      assert es + fs == fs;
    } else {
      assert (es + fs)[1..] == es[1..] + fs;
      RunAppend(Apply(w, es[0]), es[1..], fs);
    }
  }

  ghost predicate Reaches(w: World, w': World) { exists events :: Run(w, events) == w' }

  lemma {:induction false} ReachesTrans(w: World, w': World, w'': World)
    requires Reaches(w, w') && Reaches(w', w'')
    ensures Reaches(w, w'')
  {
    var es :| Run(w, es) == w';
    var fs :| Run(w', fs) == w'';
    RunAppend(w, es, fs);
  }

  lemma {:induction false} ReachesNext(w: World, w': World, e: Event)
    requires Reaches(w, w')
    ensures Reaches(w, Apply(w', e))
  {
    var es :| Run(w, es) == w';
    RunAppend(w, es, [e]);
    assert Run(Apply(w', e), []) == Apply(w', e);
    assert [e][1..] == [];
    assert Run(w', [e]) == Apply(w', e);
  }

  function After(w: World, i: nat, a: Answer, n: nat): World
    requires i < |w.tasks|
  {
    var (g, t) := Solo(w.g, w.tasks[i], a, n);
    World(g, w.tasks[i := t])
  }

  /** What a task does alone, it can do in a world. */
  lemma {:induction false} SoloReaches(w: World, i: nat, a: Answer, n: nat)
    requires i < |w.tasks|
    ensures Reaches(w, After(w, i, a, n))
  {
    if n == 0 {
      assert Run(w, []) == w;
      assert w.tasks[i := w.tasks[i]] == w.tasks;
    } else {
      SoloReaches(w, i, a, n - 1);
      var w' := After(w, i, a, n - 1);
      ReachesNext(w, w', Advance(i, a));
      assert Apply(w', Advance(i, a)).tasks == After(w, i, a, n).tasks;
    }
  }

  const EARLY := Answer(0, 0, 0, Normal, OutcomeUnknown, NoRecord, false)
  const LATE := EARLY.(dbNow := LEASE_TTL + 1)
  const WORKER := Worker("executor", 1)

  /** A permit made to measure. */
  function Fitting(id: Id, o: Order): Permit {
    CashBounds(o.size, o.price);
    Permit(id, 1, [], o.size, CashNeededFor(o.size, o.price), "", None, None, None, [],
           LEASE_TTL + 30, true, false, true)
  }

  lemma {:induction false} FittingPasses(id: Id, o: Order)
    requires o.permitId == ""
    ensures CheckOrder(o, Fitting(id, o), LATE).None?
  {}

  /** The permit is stored, and nobody has claimed it. */
  predicate Unused(g: Shared, p: Permit) { p.id in g.permits && g.permits[p.id] == PermitRow(p, false, None) }

  /** Past the duplicate check a submit under an unused permit goes all the way to the venue. */
  lemma {:induction false} ReachesClaim(g: Shared, o: Order, p: Permit)
    requires o.permitId == "" && p == Fitting(p.id, o) && Unused(g, p)
    ensures Solo(g, Task(SubmitJob(o, p), WORKER, FirstClaimCheck), LATE, 6) == (g, Task(SubmitJob(o, p), WORKER, Claim))
  {
    FittingPasses(p.id, o);
    var t := Task(SubmitJob(o, p), WORKER, FirstClaimCheck);
    assert Solo(g, t, LATE, 1) == (g, t.(pc := FirstSave));
    assert Solo(g, t, LATE, 2) == (g, t.(pc := Validate));
    assert Solo(g, t, LATE, 3) == (g, t.(pc := SecondClaimCheck));
    assert Solo(g, t, LATE, 4) == (g, t.(pc := Checks));
    assert Solo(g, t, LATE, 5) == (g, t.(pc := SecondSave));
  }

  lemma {:induction false} ClaimReachesVenue(g: Shared, o: Order, p: Permit)
    requires Unused(g, p) && p.expiresAt > LATE.dbNow && o.id in g.orders
    ensures var (g', t') := Solo(g, Task(SubmitJob(o, p), WORKER, Claim), LATE, 4);
            && g'.calls == g.calls + [Call(o, p, WORKER)] && g'.orders == g.orders
            && forall other :: other in g.permits && other != p.id ==> other in g'.permits && g'.permits[other] == g.permits[other]
  {
    var t := Task(SubmitJob(o, p), WORKER, Claim);
    assert Solo(g, t, LATE, 1) == (Claimed(g, p.id, o.id), t.(pc := MarkSubmitting));
    assert Solo(g, t, LATE, 2).1 == t.(pc := RecordSubmitting);
    assert Solo(g, t, LATE, 3).1 == t.(pc := Place);
  }

  lemma {:induction false} SubmitReaches(w: World, i: nat, o: Order, p: Permit) returns (w': World)
    requires i < |w.tasks| && w.tasks[i] == Task(SubmitJob(o, p), WORKER, FirstClaimCheck)
    requires o.permitId == "" && p == Fitting(p.id, o) && Unused(w.g, p) && o.id in w.g.orders
    ensures Reaches(w, w') && |w'.tasks| == |w.tasks| && w'.g.orders == w.g.orders
    ensures forall j :: 0 <= j < |w.tasks| && j != i ==> w'.tasks[j] == w.tasks[j]
    ensures w'.g.calls == w.g.calls + [Call(o, p, WORKER)]
    ensures forall other :: other in w.g.permits && other != p.id ==>
              other in w'.g.permits && w'.g.permits[other] == w.g.permits[other]
  {
    ReachesClaim(w.g, o, p);
    SoloReaches(w, i, LATE, 6);
    var v := After(w, i, LATE, 6);
    ClaimReachesVenue(v.g, o, p);
    SoloReaches(v, i, LATE, 4);
    w' := After(v, i, LATE, 4);
    ReachesTrans(w, v, w');
  }

  /** Two permits issued, and the order on record. */
  lemma {:induction false} RaceIsSetUp(o: Order, p: Permit, q: Permit) returns (w: World)
    requires p.id != q.id && !p.usedAlready && !q.usedAlready
    ensures Reaches(BEGIN, w) && w.tasks == []
    ensures w.g == BEGIN.g.(permits := map[p.id := PermitRow(p, false, None), q.id := PermitRow(q, false, None)], orders := {o.id})
  {
    assert Run(BEGIN, []) == BEGIN;
    ReachesNext(BEGIN, BEGIN, Issue(p));
    var w1 := Apply(BEGIN, Issue(p));
    ReachesNext(BEGIN, w1, Issue(q));
    var w2 := Apply(w1, Issue(q));
    ReachesNext(BEGIN, w2, ListOrder(o.id));
    w := Apply(w2, ListOrder(o.id));
  }

  /** Two submits of one order, the second started when the first one's lease has lapsed. */
  lemma {:induction false} RaceStarts(o: Order, p: Permit, q: Permit) returns (w: World)
    requires p.id != q.id && !p.usedAlready && !q.usedAlready && p.singleUse && q.singleUse
    ensures Reaches(BEGIN, w) && w.g.calls == [] && o.id in w.g.orders && Unused(w.g, p) && Unused(w.g, q)
    ensures w.tasks == [Task(SubmitJob(o, p), WORKER, FirstClaimCheck), Task(SubmitJob(o, q), WORKER, FirstClaimCheck)]
  {
    var t, u := Task(SubmitJob(o, p), WORKER, Acquire), Task(SubmitJob(o, q), WORKER, Acquire);
    var start := RaceIsSetUp(o, p, q);
    ReachesNext(BEGIN, start, Start(t.job, WORKER));
    var w0 := World(start.g, [t]);
    ReachesNext(BEGIN, w0, Start(u.job, WORKER));
    var w1 := World(start.g, [t, u]);
    assert Apply(w0, Start(u.job, WORKER)) == w1;
    PassesDuplicateCheck(w1.g, t, EARLY);
    SoloReaches(w1, 0, EARLY, 2);
    var w2 := After(w1, 0, EARLY, 2);
    PassesDuplicateCheck(w2.g, u, LATE);
    SoloReaches(w2, 1, LATE, 2);
    w := After(w2, 1, LATE, 2);
    ReachesTrans(BEGIN, w1, w2);
    ReachesTrans(BEGIN, w2, w);
  }

  lemma {:induction false} PassesDuplicateCheck(g: Shared, t: Task, a: Answer)
    requires t.job.SubmitJob? && t.job.permit.singleUse && t.job.order.id !in g.seen
    requires t.pc.Acquire? && CanLease(g, t.worker, a.dbNow)
    ensures Solo(g, t, a, 2) == (Leased(g, t.worker, a.dbNow), t.(pc := FirstClaimCheck))
  {
    assert Solo(g, t, a, 1) == (Leased(g, t.worker, a.dbNow), t.(pc := Dedupe));
  }

  /** Once the order is on record: nothing is sent before that. */
  lemma {:induction false} UnboundOrderTwice(o: Order)
    requires o.permitId == ""
    ensures exists events :: Twice(Run(BEGIN, events).g.calls, o)
  {
    var p, q := Fitting("p", o), Fitting("q", o);
    assert "p"[0] != "q"[0];
    var w := RaceStarts(o, p, q);
    var v := SubmitReaches(w, 0, o, p);
    var u := SubmitReaches(v, 1, o, q);
    ReachesTrans(BEGIN, w, v);
    ReachesTrans(BEGIN, v, u);
    var events :| Run(BEGIN, events) == u;
    assert u.g.calls == [Call(o, p, WORKER), Call(o, q, WORKER)];
    assert u.g.calls[0].order == o && u.g.calls[1].order == o;
  }

  /**
   When the same order is never sent twice: exactly when it names its permit. An order that names
   none is sent twice by two submits that both read the seen log before either writes it, each
   holding a permit of its own; the lease between them can lapse.
   */
  lemma {:induction false} AtMostOncePerOrderIff(o: Order)
    ensures (forall events :: !Twice(Run(BEGIN, events).g.calls, o)) <==> o.permitId != ""
  {
    if o.permitId != "" {
      forall events ensures !Twice(Run(BEGIN, events).g.calls, o) {
        BoundOrderOnce(events, o);
      }
    } else {
      UnboundOrderTwice(o);
    }
  }

  // ----- the money beneath -----

  ghost predicate Reachable(s: Money.State) { exists steps :: s == Money.Run(Money.EMPTY, steps) }

  lemma {:induction false} MoneyRunAppend(s: Money.State, steps: seq<Money.Step>, last: Money.Step)
    ensures Money.Run(s, steps + [last]) == Money.Apply(Money.Run(s, steps), last)
    decreases |steps|
  {
    if steps == [] {
      assert steps + [last] == [last] && [last][1..] == [];
      assert Money.Run(Money.Apply(s, last), []) == Money.Apply(s, last);
    } else {
      assert (steps + [last])[1..] == steps[1..] + [last];
      MoneyRunAppend(Money.Apply(s, steps[0]), steps[1..], last);
    }
  }

  lemma {:induction false} ReachableNext(s: Money.State, step: Money.Step)
    requires Reachable(s)
    ensures Reachable(Money.Apply(s, step))
  {
    var steps :| s == Money.Run(Money.EMPTY, steps);
    MoneyRunAppend(Money.EMPTY, steps, step);
  }

  lemma {:induction false} DoReachable(g: Shared, w: Worker, id: Id, action: Action, a: Answer)
    requires Reachable(g.money)
    ensures Reachable(Do(g, w, id, action, a).money)
  {
    match action
    case Free(rid, reason) => ReachableNext(g.money, Money.DoRelease(rid, reason));
    case Spend(rid, cash) => ReachableNext(g.money, Money.DoConsume(rid, cash, a.bankNow));
    case _ =>
  }

  lemma {:induction false} SettleReachable(g: Shared, w: Worker, id: Id, pc: Pc, a: Answer)
    requires Reachable(g.money)
    ensures Reachable(StepSettle(g, w, id, pc, a).0.money)
  {
    if pc.Doing? && pc.todo != [] { DoReachable(g, w, id, pc.todo[0], a); }
  }

  lemma {:induction false} StepReachable(g: Shared, t: Task, a: Answer)
    requires Reachable(g.money)
    ensures Reachable(Step(g, t, a).0.money)
  {
    SettleReachable(g, t.worker, JobOrder(t.job), t.pc, a);
  }

  lemma {:induction false} ApplyReachable(w: World, e: Event)
    requires Reachable(w.g.money)
    ensures Reachable(Apply(w, e).g.money)
  {
    match e
    case Advance(i, a) => if i < |w.tasks| { StepReachable(w.g, w.tasks[i], a); }
    case Bank(step) => ReachableNext(w.g.money, step);
    case _ =>
  }

  lemma {:induction false} RunReachable(w: World, events: seq<Event>)
    requires Reachable(w.g.money)
    ensures Reachable(Run(w, events).g.money)
    decreases |events|
  {
    if events != [] {
      ApplyReachable(w, events[0]);
      RunReachable(Apply(w, events[0]), events[1..]);
    }
  }

  /**
   Whatever the executor's tasks do, in whatever order, and wherever they die, the money tables are
   in a state the reservation transactions alone can reach; so they are coupled, and conserved.
   */
  lemma {:induction false} MoneyStaysReachable(events: seq<Event>)
    ensures Reachable(Run(BEGIN, events).g.money) && Money.Coupled(Run(BEGIN, events).g.money)
  {
    assert Money.EMPTY == Money.Run(Money.EMPTY, []);
    RunReachable(BEGIN, events);
    var steps :| Run(BEGIN, events).g.money == Money.Run(Money.EMPTY, steps);
    Money.EmptyCoupled();
    Money.RunCoupled(Money.EMPTY, steps);
  }
}
