/**
 The executor as the object the program has: `Submit`, `Cancel` and `Reconcile` update the seen
 log, the permit store, the recovery ledger and the reservations step by step. Each is proved to
 be a complete run, with nothing in between, of the corresponding task of `ExecutorSteps`, so
 whatever holds of every interleaving holds of it.
 */
module Executor {
  import opened Wrappers
  import opened BigInt
  import opened ExecutorSteps
  import ExecutorSafety
  import Money
  import MoneyStore

  // ----- running alone -----

  ghost predicate Gets(g: Shared, t: Task, a: Answer, g': Shared, t': Task) {
    exists n: nat :: Solo(g, t, a, n) == (g', t')
  }

  lemma {:induction false} GetsHere(g: Shared, t: Task, a: Answer)
    ensures Gets(g, t, a, g, t)
  {
    assert Solo(g, t, a, 0) == (g, t);
  }

  lemma {:induction false} GetsNext(g: Shared, t: Task, a: Answer, g1: Shared, t1: Task)
    requires Gets(g, t, a, g1, t1)
    ensures Gets(g, t, a, Step(g1, t1, a).0, Step(g1, t1, a).1)
  {
    var n: nat :| Solo(g, t, a, n) == (g1, t1);
    assert Solo(g, t, a, n + 1) == Step(g1, t1, a);
  }

  lemma {:induction false} GetsOn(g: Shared, t: Task, a: Answer, g1: Shared, t1: Task, m: nat, g2: Shared, t2: Task)
    requires Gets(g, t, a, g1, t1) && Solo(g1, t1, a, m) == (g2, t2)
    ensures Gets(g, t, a, g2, t2)
    decreases m
  {
    if m > 0 {
      var (before, at) := Solo(g1, t1, a, m - 1);
      GetsOn(g, t, a, g1, t1, m - 1, before, at);
      GetsNext(g, t, a, before, at);
    }
  }

  lemma {:induction false} GetsTrans(g: Shared, t: Task, a: Answer, g1: Shared, t1: Task, g2: Shared, t2: Task)
    requires Gets(g, t, a, g1, t1) && Gets(g1, t1, a, g2, t2)
    ensures Gets(g, t, a, g2, t2)
  {
    var m: nat :| Solo(g1, t1, a, m) == (g2, t2);
    GetsOn(g, t, a, g1, t1, m, g2, t2);
  }

  /** The effect of a list of actions. */
  function DoAll(g: Shared, w: Worker, id: Id, todo: seq<Action>, a: Answer): Shared
    decreases |todo|
  {
    if todo == [] then g else DoAll(Do(g, w, id, todo[0], a), w, id, todo[1..], a)
  }

  lemma {:induction false} DoAllAdds(g: Shared, w: Worker, id: Id, xs: seq<Action>, ys: seq<Action>, a: Answer)
    ensures DoAll(g, w, id, xs + ys, a) == DoAll(DoAll(g, w, id, xs, a), w, id, ys, a)
    decreases |xs|
  {
    if xs == [] {
      assert xs + ys == ys;
    } else {
      assert (xs + ys)[1..] == xs[1..] + ys;
      DoAllAdds(Do(g, w, id, xs[0], a), w, id, xs[1..], ys, a);
    }
  }

  lemma {:induction false} DoAllNext(g: Shared, w: Worker, id: Id, done: seq<Action>, x: Action, a: Answer)
    ensures DoAll(g, w, id, done + [x], a) == Do(DoAll(g, w, id, done, a), w, id, x, a)
  {
    DoAllAdds(g, w, id, done, [x], a);
    assert [x][1..] == [];
  }

  /** A task that is settling does all it has listed, then goes on. */
  lemma {:induction false} GetsDone(g: Shared, job: Job, w: Worker, todo: seq<Action>, next: Pc, a: Answer)
    ensures Gets(g, Task(job, w, Doing(todo, next)), a, DoAll(g, w, JobOrder(job), todo, a), Task(job, w, next))
    decreases |todo|
  {
    var t := Task(job, w, Doing(todo, next));
    GetsHere(g, t, a);
    GetsNext(g, t, a, g, t);
    if todo != [] {
      var (g1, t1) := Step(g, t, a);
      GetsDone(g1, job, w, todo[1..], next, a);
      GetsTrans(g, t, a, g1, t1, DoAll(g, w, JobOrder(job), todo, a), Task(job, w, next));
    }
  }

  /** Whether a submit goes on, or is turned away before the claim. */
  datatype Verdict = Proceed | TurnedAway(outcome: Outcome, early: bool)

  function Stand(v: Verdict, next: Pc): Pc { if v.Proceed? then next else Refuse(v.outcome, v.early) }

  // ----- what a submit does to the money -----

  function ReleaseEach(m: Money.State, ids: seq<Id>, reason: Money.Reason): Money.State {
    if ids == [] then m
    else Money.Release(ReleaseEach(m, ids[..|ids| - 1], reason), ids[|ids| - 1], reason).0
  }

  function ConsumeEach(m: Money.State, ids: seq<Id>, cash: int, now: int): Money.State {
    if ids == [] then m
    else Money.Consume(ConsumeEach(m, ids[..|ids| - 1], cash, now), ids[|ids| - 1], cash, now).0
  }

  lemma {:induction false} ReleaseEachNext(m: Money.State, ids: seq<Id>, reason: Money.Reason, i: nat)
    requires i < |ids|
    ensures ReleaseEach(m, ids[..i + 1], reason) == Money.Release(ReleaseEach(m, ids[..i], reason), ids[i], reason).0
  {
    assert ids[..i + 1][..i] == ids[..i];
  }

  lemma {:induction false} ConsumeEachNext(m: Money.State, ids: seq<Id>, cash: int, now: int, i: nat)
    requires i < |ids|
    ensures ConsumeEach(m, ids[..i + 1], cash, now) == Money.Consume(ConsumeEach(m, ids[..i], cash, now), ids[i], cash, now).0
  {
    assert ids[..i + 1][..i] == ids[..i];
  }

  /** Releasing one after another is all that these actions do. */
  lemma {:induction false} ReleasesAre(g: Shared, w: Worker, id: Id, ids: seq<Id>, reason: Money.Reason, a: Answer)
    ensures DoAll(g, w, id, Releases(ids, reason), a) == g.(money := ReleaseEach(g.money, ids, reason))
    decreases |ids|
  {
    if ids != [] {
      var n := |ids| - 1;
      ReleasesAre(g, w, id, ids[..n], reason, a);
      assert Releases(ids, reason) == Releases(ids[..n], reason) + [Free(ids[n], reason)];
      DoAllNext(g, w, id, Releases(ids[..n], reason), Free(ids[n], reason), a);
    }
  }

  lemma {:induction false} SpendsAre(g: Shared, w: Worker, id: Id, ids: seq<Id>, cash: int, a: Answer)
    ensures DoAll(g, w, id, Spends(ids, cash), a) == g.(money := ConsumeEach(g.money, ids, cash, a.bankNow))
    decreases |ids|
  {
    if ids != [] {
      var n := |ids| - 1;
      SpendsAre(g, w, id, ids[..n], cash, a);
      assert Spends(ids, cash) == Spends(ids[..n], cash) + [Spend(ids[n], cash)];
      DoAllNext(g, w, id, Spends(ids[..n], cash), Spend(ids[n], cash), a);
    }
  }

  lemma {:induction false} ReleaseOne(m: Money.State, id: Id, reason: Money.Reason)
    ensures ReleaseEach(m, [id], reason) == Money.Release(m, id, reason).0
  {
    assert [id][..0] == [];
    assert ReleaseEach(m, [], reason) == m;
  }

  lemma {:induction false} ConsumeOne(m: Money.State, id: Id, cash: int, now: int)
    ensures ConsumeEach(m, [id], cash, now) == Money.Consume(m, id, cash, now).0
  {
    assert [id][..0] == [];
    assert ConsumeEach(m, [], cash, now) == m;
  }

  /** A refusal by the venue releases, a fill consumes, and nothing else touches the money. */
  function MoneyAfter(m: Money.State, o: Order, p: Permit, out: Outcome, now: int): Money.State {
    match out
    case PermitRefused(code) =>
      if code.NothingSent? || code.RefusedByVenue? then ReleaseEach(m, p.reservationIds, Money.RejectedReason) else m
    case Submitted(r, _) =>
      if r.filled == 0 then m
      else ConsumeEach(m, p.reservationIds, CashNeededFor(r.filled, if r.average.Some? then r.average.value else o.price), now)
    case _ => m
  }

  /** The outcomes that only an answer from the venue, or its absence, can bring. */
  predicate Contacted(out: Outcome) {
    out.Submitted? || out.NeedsReconciliation? || (out.PermitRefused? && (out.code.NothingSent? || out.code.RefusedByVenue?))
  }

  // ----- what an answer must leave behind, in the venue's own terms -----

  /** The failure proves that no connection was opened: it names one that was not made, and no timeout or reset. */
  predicate NeverLeft(placed: PlaceAnswer) {
    match placed
    case NotSent(Some(text)) => text.connectFailure && !text.timeoutOrReset
    case _ => false
  }

  /** Whether anything was sent is open: the request may be at the venue. */
  predicate Open(placed: PlaceAnswer) { placed.OutcomeUnknown? || (placed.NotSent? && !NeverLeft(placed)) }

  /** The state a submission status stands for; none at all leaves the order in flight. */
  predicate Tells(submit: Option<SubmitStatus>, state: Lifecycle) {
    match state
    case Submitting => submit == None || submit == Some(SubmittingStatus)
    case Acknowledged => submit == Some(AcknowledgedStatus)
    case SubmissionUnknown => submit == Some(UnknownStatus)
    case DefinitiveReject => submit == Some(RejectedStatus)
    case _ => false
  }

  predicate Dead(r: OrderResult) {
    r.orderStatus == Some(Canceled) || r.orderStatus == Some(Rejected) || r.orderStatus == Some(Expired)
  }

  predicate StillWorking(r: OrderResult) { r.orderStatus == Some(Live) || r.orderStatus == Some(Partial) }

  /**
   What a report makes of a ledger row. A dead order closes it as rejected, even one whose submission was
   acknowledged; a working one leaves it open as acknowledged, or closed as it was; a matched one, or one that was
   only acknowledged, closes it as acknowledged; anything else closes it as rejected.
   */
  predicate ReportLeaves(row: LedgerRow, r: OrderResult, row': LedgerRow) {
    && row'.permitId == row.permitId
    && (Dead(r) ==> row'.resolved && row'.state == DefinitiveReject)
    && (StillWorking(r) && row.resolved ==> row'.resolved && row'.state == row.state)
    && (StillWorking(r) && !row.resolved ==> !row'.resolved && row'.state == Acknowledged)
    && (!Dead(r) && !StillWorking(r) ==>
          row'.resolved && row'.state == if r.orderStatus == Some(Matched) || r.submitStatus == Some(AcknowledgedStatus)
                        then Acknowledged else DefinitiveReject)
  }

  /** What the seen log and the ledger row hold of an order after the answer to its request. */
  predicate AnswerLeaves(placed: PlaceAnswer, seen: Lifecycle, row: LedgerRow, seen': Lifecycle, row': LedgerRow) {
    match placed
    case NotSent(_) =>
      if NeverLeft(placed)
      then seen' == DefinitiveReject && row' == row.(state := DefinitiveReject, resolved := true)
      else seen' == seen && row' == row
    case OutcomeUnknown => seen' == SubmissionUnknown && row' == row.(state := SubmissionUnknown)
    case Refusal => seen' == seen && row' == row.(state := DefinitiveReject)
    case Acked(r) => Tells(r.submitStatus, seen') && ReportLeaves(row.(state := seen'), r, row')
  }

  /** The outcome an answer calls for. */
  predicate AnswerEnds(placed: PlaceAnswer, out: Outcome) {
    && (out == PermitRefused(NothingSent) <==> NeverLeft(placed))
    && (out == PermitRefused(RefusedByVenue) <==> placed.Refusal?)
    && (out == NeedsReconciliation <==> Open(placed))
    && (out.Submitted? <==> placed.Acked?)
    && (placed.Acked? ==> out.result == placed.result && Tells(placed.result.submitStatus, out.state))
  }

  /** Nothing is remembered differently of any other order. */
  ghost predicate OthersStay(
    id: Id, seen: map<Id, Lifecycle>, ledger: map<Id, LedgerRow>, seen': map<Id, Lifecycle>, ledger': map<Id, LedgerRow>)
  {
    && (forall other :: other != id ==> (other in seen' <==> other in seen) && (other in seen ==> seen'[other] == seen[other]))
    && (forall other :: other != id ==> (other in ledger' <==> other in ledger) && (other in ledger ==> ledger'[other] == ledger[other]))
  }

  /**
   What the venue's word on an order makes of it: dead means rejected, in the seen log and in the row alike; otherwise
   only an acknowledged submission is news, and anything short of it leaves things as they are.
   */
  ghost predicate Told(g: Shared, id: Id, status: StatusAnswer, current: Lifecycle, g': Shared, out: Lifecycle) {
    match status
    case NoRecord => out == current && g'.seen == g.seen && g'.ledger == g.ledger
    case Unreachable => out == SubmissionUnknown && g'.seen == g.seen && g'.ledger == g.ledger
    case Found(r) =>
      if Dead(r) || r.submitStatus == Some(AcknowledgedStatus) then
        && out == (if Dead(r) then DefinitiveReject else Acknowledged)
        && g'.seen == g.seen[id := out]
        && (id in g.ledger ==> id in g'.ledger && ReportLeaves(g.ledger[id], r, g'.ledger[id]))
      else out == SubmissionUnknown && g'.seen == g.seen && g'.ledger == g.ledger
  }

  /** A dead order's reservations are released, an acknowledged one's may be consumed, and nothing else moves money. */
  ghost predicate MoneyTold(g: Shared, id: Id, status: StatusAnswer, g': Shared) {
    if status.Found? && Dead(status.result) then g'.money == ReleaseEach(g.money, BoundTo(g, id), ReleaseReason(status.result))
    else if status.Found? && status.result.submitStatus == Some(AcknowledgedStatus) then true
    else g'.money == g.money
  }

  /** Each way a cancel ends, exactly when: without the lease, against the mode, on an unresolved row, or by the venue's word. */
  predicate CancelEnds(g: Shared, w: Worker, id: Id, a: Answer, out: Outcome) {
    var free := LeaseFree(g.lease, w, a.dbNow);
    var closed := a.mode == ReadOnly || a.mode == Unavailable || a.mode == UnknownMode;
    var pending := id in g.ledger && !g.ledger[id].resolved;
    && (out == CancelRefused(LeaseNotAcquired) <==> !free)
    && (out == CancelRefused(ModeForbids) <==> free && closed)
    && (out == CancelThrew <==> free && !closed && pending)
    && (out == CancelConfirmed <==> free && !closed && !pending && a.cancelled)
    && (out == CancelFailed <==> free && !closed && !pending && !a.cancelled)
  }

  /**
   All a cancel leaves: its request, if it came to one, and once confirmed the order's row closed as rejected and its
   reservations released. Only a cancel that threw keeps the lease.
   */
  predicate CancelLeaves(g: Shared, w: Worker, id: Id, a: Answer, g': Shared, out: Outcome) {
    g' == g.(
      lease := if out == CancelRefused(LeaseNotAcquired) then g.lease
               else if out == CancelThrew then Some(Lease(w.holder, w.epoch, a.dbNow + 30)) else None,
      cancels := if out == CancelConfirmed || out == CancelFailed then g.cancels + [id] else g.cancels,
      ledger := if out == CancelConfirmed && id in g.ledger
                then g.ledger[id := g.ledger[id].(state := DefinitiveReject, resolved := true)] else g.ledger,
      money := if out == CancelConfirmed then ReleaseEach(g.money, BoundTo(g, id), Money.CancelledReason) else g.money)
  }

  // ----- what a submit goes by, and what it leaves, in the tables' own terms -----

  /** The row a permit is judged by: the stored one, or its own when none is stored. */
  function OnFile(permits: map<Id, PermitRow>, p: Permit): PermitRow {
    match p.id in permits
    case true => permits[p.id]
    case false => PermitRow(p, p.usedAlready, None)
  }

  predicate LeaseFree(lease: Option<Lease>, w: Worker, dbNow: int) {
    match lease
    case None => true
    case Some(held) => held.epoch < w.epoch || held.expiresAt < dbNow
  }

  /** The permit on file is still to be had. */
  predicate Unspent(row: PermitRow, dbNow: int) { !row.used && dbNow < row.permit.expiresAt }

  /** What it takes, lease apart, for a submit to make its request. */
  predicate Ready(g: Shared, w: Worker, o: Order, p: Permit, a: Answer) {
    && (o.id in g.seen ==> g.seen[o.id] == DefinitiveReject)
    && OnFile(g.permits, p).permit.leaseEpoch == w.epoch
    && Unspent(OnFile(g.permits, p), a.dbNow)
    && Suits(o, p, a)
    && o.id in g.orders
  }

  predicate Goes(g: Shared, w: Worker, o: Order, p: Permit, a: Answer) { LeaseFree(g.lease, w, a.dbNow) && Ready(g, w, o, p, a) }

  /** What an outcome without a request says is so. */
  predicate TurnedAwayFor(out: Outcome, g: Shared, w: Worker, o: Order, p: Permit, a: Answer) {
    match out
    case Duplicate => o.id in g.seen && g.seen[o.id] != DefinitiveReject
    case PermitRefused(code) =>
      (match code
       case LeaseNotAcquired => !LeaseFree(g.lease, w, a.dbNow)
       case PermitReused => p.singleUse && OnFile(g.permits, p).used
       case LeaseEpochMismatch => OnFile(g.permits, p).permit.leaseEpoch != w.epoch
       case PermitUsed => !Unspent(OnFile(g.permits, p), a.dbNow)
       case AtomicClaimFailed => o.id !in g.orders
       case _ => Fault(code, o, p, a))
    case _ => false
  }

  /** The row a request is recorded in: a new one, or the order's old one with its counters and its resolved flag. */
  function InFlight(ledger: map<Id, LedgerRow>, orderId: Id, permitId: Id): LedgerRow {
    match orderId in ledger
    case true => ledger[orderId].(permitId := permitId, state := Submitting)
    case false => LedgerRow(permitId, Submitting, false, 0, 0)
  }

  /** A permit that is filed if none of its id is. */
  function Filed(permits: map<Id, PermitRow>, p: Permit): map<Id, PermitRow> { permits[p.id := OnFile(permits, p)] }

  /** A request was made and answered: what the order's row and the money have become. */
  ghost predicate Heard(g: Shared, o: Order, p: Permit, a: Answer, g': Shared, out: Outcome) {
    && AnswerEnds(a.placed, out)
    && o.id in g'.seen && o.id in g'.ledger
    && AnswerLeaves(a.placed, Submitting, InFlight(g.ledger, o.id, p.id), g'.seen[o.id], g'.ledger[o.id])
    && (NeverLeft(a.placed) || a.placed.Refusal? ==>
          g'.money == ReleaseEach(g.money, p.reservationIds, Money.RejectedReason))
    && (Open(a.placed) ==> g'.money == g.money)
  }

  /** And under a claim of the permit for this order. */
  ghost predicate Requested(g: Shared, o: Order, p: Permit, a: Answer, g': Shared, out: Outcome) {
    && Heard(g, o, p, a, g', out)
    && g'.permits == g.permits[p.id := OnFile(g.permits, p).(used := true, claimedBy := Some(o.id))]
  }

  lemma {:induction false} RequestedAfterClaim(g: Shared, g1: Shared, o: Order, p: Permit, a: Answer, g': Shared, out: Outcome)
    requires p.id in g.permits && g'.permits == g1.permits && Heard(g1, o, p, a, g', out) && g1.money == g.money
    requires g1.permits == g.permits[p.id := g.permits[p.id].(used := true, claimedBy := Some(o.id))]
    requires g1.ledger == g.ledger[o.id := InFlight(g.ledger, o.id, p.id)]
    ensures Requested(g, o, p, a, g', out)
  {
    assert InFlight(g1.ledger, o.id, p.id) == InFlight(g.ledger, o.id, p.id);
  }

  /** Nothing was asked of the venue: the tables are as they were, but that the permit may have been filed. */
  ghost predicate Untouched(g: Shared, p: Permit, g': Shared) {
    && g'.seen == g.seen && g'.ledger == g.ledger && g'.money == g.money
    && (g'.permits == g.permits || g'.permits == Filed(g.permits, p))
  }

  /** This worker's holder has the lease, or nobody does. */
  predicate HeldBy(lease: Option<Lease>, w: Worker) { lease.Some? ==> lease.value.holder == w.holder }

  /** How a submit, once it has the lease, has ended. */
  ghost predicate Concluded(g: Shared, w: Worker, o: Order, p: Permit, a: Answer, g': Shared, out: Outcome) {
    && OthersStay(o.id, g.seen, g.ledger, g'.seen, g'.ledger)
    && (HeldBy(g.lease, w) ==> g'.lease == None)
    && (Contacted(out) ==> Requested(g, o, p, a, g', out))
    && (!Contacted(out) ==> out != PermitRefused(LeaseNotAcquired) && TurnedAwayFor(out, g, w, o, p, a) && Untouched(g, p, g'))
  }

  /** What stands before the claim: the order may go on under a filed permit, or is turned away for a reason that is so. */
  predicate Admitted(g: Shared, w: Worker, o: Order, p: Permit, a: Answer, permits: map<Id, PermitRow>, v: Verdict) {
    match v
    case TurnedAway(out, _) =>
      && !Contacted(out) && out != PermitRefused(LeaseNotAcquired) && TurnedAwayFor(out, g, w, o, p, a)
      && (permits == g.permits || permits == Filed(g.permits, p))
    case Proceed =>
      && permits == Filed(g.permits, p)
      && (o.id in g.seen ==> g.seen[o.id] == DefinitiveReject)
      && OnFile(g.permits, p).permit.leaseEpoch == w.epoch && Suits(o, p, a)
  }

  /** Filing the permit first makes no difference to what is concluded. */
  lemma {:induction false} ConcludedOnceFiled(g: Shared, g1: Shared, w: Worker, o: Order, p: Permit, a: Answer, g': Shared, out: Outcome)
    requires Admitted(g, w, o, p, a, g1.permits, Proceed)
    requires g1 == g.(permits := g1.permits) && Concluded(g1, w, o, p, a, g', out)
    requires Contacted(out) <==> Unspent(g1.permits[p.id], a.dbNow) && o.id in g.orders
    ensures Concluded(g, w, o, p, a, g', out) && (Contacted(out) <==> Ready(g, w, o, p, a))
  {
    assert OnFile(g1.permits, p) == OnFile(g.permits, p);
  }

  lemma {:induction false} ConcludedUnderLease(g: Shared, g1: Shared, w: Worker, o: Order, p: Permit, a: Answer, g': Shared, out: Outcome)
    requires LeaseFree(g.lease, w, a.dbNow) && g1 == g.(lease := g1.lease) && HeldBy(g1.lease, w)
    requires Concluded(g1, w, o, p, a, g', out) && (Contacted(out) <==> Ready(g1, w, o, p, a))
    ensures Contacted(out) <==> Goes(g, w, o, p, a)
    ensures if Contacted(out) then Requested(g, o, p, a, g', out)
            else out != PermitRefused(LeaseNotAcquired) && TurnedAwayFor(out, g, w, o, p, a) && Untouched(g, p, g')
    ensures OthersStay(o.id, g.seen, g.ledger, g'.seen, g'.ledger) && g'.lease == None
  {}

  lemma {:induction false} ConcludedAtOnce(g: Shared, g1: Shared, w: Worker, o: Order, p: Permit, a: Answer, g': Shared, v: Verdict)
    requires v.TurnedAway? && Admitted(g, w, o, p, a, g1.permits, v)
    requires g1 == g.(permits := g1.permits)
    requires g' == g1.(lease := g'.lease) && (HeldBy(g.lease, w) ==> g'.lease == None)
    ensures Concluded(g, w, o, p, a, g', v.outcome) && !Ready(g, w, o, p, a)
  {}

  class Executor {
    const worker: Worker
    var lease: Option<Lease>
    var seen: map<Id, Lifecycle>
    /** The orders on record; nothing here adds to them. */
    const orders: set<Id>
    var permits: map<Id, PermitRow>
    var ledger: map<Id, LedgerRow>
    var calls: seq<Call>
    var queries: seq<Id>
    var cancels: seq<Id>
    const bank: MoneyStore.Store

    function View(): Shared reads this, bank { Shared(lease, seen, orders, permits, ledger, calls, queries, cancels, bank.View()) }

    constructor (worker: Worker, orders: set<Id>, bank: MoneyStore.Store)
      ensures this.worker == worker && this.bank == bank
      ensures View() == Shared(None, map[], orders, map[], map[], [], [], [], bank.View())
    {
      this.worker := worker;
      this.bank := bank;
      this.orders := orders;
      lease, seen, permits, ledger := None, map[], map[], map[];
      calls, queries, cancels := [], [], [];
    }

    // ----- one statement each -----

    /**
     `acquire_executor_lease`. Once it is taken, another acquisition succeeds only with a higher epoch or
     after the time limit; a refusal means somebody of no lower epoch holds it and it has not lapsed.
     */
    method AcquireLease(dbNow: int) returns (ok: bool)
      modifies this`lease
      ensures ok == CanLease(old(View()), worker, dbNow)
      ensures View() == if ok then Leased(old(View()), worker, dbNow) else old(View())
      ensures ok ==> forall other: Worker, later ::
                CanLease(View(), other, later) <==> other.epoch > worker.epoch || later > dbNow + 30
      ensures ok ==> forall other: Worker ::
                Unleased(View(), other).lease.None? <==> other.holder == worker.holder
      ensures !ok ==> lease.Some? && lease.value.epoch >= worker.epoch && lease.value.expiresAt >= dbNow
    {
      ok := CanLease(View(), worker, dbNow);
      if ok { lease := Some(Lease(worker.holder, worker.epoch, dbNow + LEASE_TTL)); }
    }

    method ReleaseLease()
      modifies this`lease
      ensures View() == old(View()).(lease := lease) && (HeldBy(old(lease), worker) ==> lease == None)
      ensures View() == Unleased(old(View()), worker)
    {
      if lease.Some? && lease.value.holder == worker.holder { lease := None; }
    }

    method ReleaseAll(ids: seq<Id>, reason: Money.Reason, ghost id: Id, ghost a: Answer)
      modifies bank
      ensures View() == DoAll(old(View()), worker, id, Releases(ids, reason), a)
      ensures bank.View() == ReleaseEach(old(bank.View()), ids, reason)
    {
      ReleasesAre(View(), worker, id, ids, reason, a);
      for i := 0 to |ids|
        invariant bank.View() == ReleaseEach(old(bank.View()), ids[..i], reason)
      {
        ReleaseEachNext(old(bank.View()), ids, reason, i);
        var _ := bank.Release(ids[i], reason);
      }
      assert ids[..|ids|] == ids;
    }

    method ConsumeAll(ids: seq<Id>, cash: int, ghost id: Id, a: Answer)
      modifies bank
      ensures View() == DoAll(old(View()), worker, id, Spends(ids, cash), a)
      ensures bank.View() == ConsumeEach(old(bank.View()), ids, cash, a.bankNow)
    {
      SpendsAre(View(), worker, id, ids, cash, a);
      for i := 0 to |ids|
        invariant bank.View() == ConsumeEach(old(bank.View()), ids[..i], cash, a.bankNow)
      {
        ConsumeEachNext(old(bank.View()), ids, cash, a.bankNow, i);
        var _ := bank.Consume(ids[i], cash, a.bankNow);
      }
      assert ids[..|ids|] == ids;
    }

    // ----- submit -----

    /** `PermitStore.save`. */
    method Save(p: Permit)
      modifies this`permits
      ensures View() == old(View()).(permits := Saved(old(permits), p))
    {
      if p.id !in permits { permits := permits[p.id := PermitRow(p, p.usedAlready, None)]; }
    }

    /** The duplicate check and the first look at the permit. */
    method Recognise(o: Order, p: Permit, a: Answer) returns (verdict: Verdict)
      ensures Gets(View(), Task(SubmitJob(o, p), worker, Dedupe), a,
                   View(), Task(SubmitJob(o, p), worker, Stand(verdict, FirstSave)))
      ensures verdict.TurnedAway? ==>
                !Contacted(verdict.outcome) && verdict.outcome != PermitRefused(LeaseNotAcquired)
                && TurnedAwayFor(verdict.outcome, View(), worker, o, p, a)
      ensures verdict.Proceed? ==> (o.id in seen ==> seen[o.id] == DefinitiveReject)
    {
      ghost var g, t := View(), Task(SubmitJob(o, p), worker, Dedupe);
      GetsHere(g, t, a);
      GetsNext(g, t, a, g, t);
      if o.id in seen && !seen[o.id].DefinitiveReject? { return TurnedAway(Duplicate, true); }
      if p.singleUse {
        GetsNext(g, t, a, g, t.(pc := FirstClaimCheck));
        var claimed := p.id in permits && permits[p.id].used;
        if claimed { return TurnedAway(PermitRefused(PermitReused), false); }
      }
      return Proceed;
    }

    /** The permit's epoch, its claim, and every check of the order against it. */
    method Examine(o: Order, p: Permit, a: Answer) returns (verdict: Verdict)
      ensures Gets(View(), Task(SubmitJob(o, p), worker, Validate), a,
                   View(), Task(SubmitJob(o, p), worker, Stand(verdict, SecondSave)))
      ensures verdict.TurnedAway? ==>
                !Contacted(verdict.outcome) && verdict.outcome != PermitRefused(LeaseNotAcquired)
                && (p.id in permits ==> TurnedAwayFor(verdict.outcome, View(), worker, o, p, a))
      ensures verdict.Proceed? ==> p.id in permits && permits[p.id].permit.leaseEpoch == worker.epoch && Suits(o, p, a)
    {
      ghost var g, t := View(), Task(SubmitJob(o, p), worker, Validate);
      GetsHere(g, t, a);
      GetsNext(g, t, a, g, t);
      if p.id !in permits || permits[p.id].permit.leaseEpoch != worker.epoch {
        return TurnedAway(PermitRefused(LeaseEpochMismatch), true);
      }
      if p.singleUse {
        GetsNext(g, t, a, g, t.(pc := SecondClaimCheck));
        if permits[p.id].used { return TurnedAway(PermitRefused(PermitReused), false); }
      }
      GetsNext(g, t, a, g, t.(pc := Checks));
      var refused := CheckOrder(o, p, a);
      if refused.Some? {
        return TurnedAway(PermitRefused(refused.value), refused.value.PermitMismatch? || refused.value.ModeForbids?);
      }
      return Proceed;
    }

    /** `claimPermitAndRecordSubmission`: one transaction. */
    method ClaimPermit(o: Order, p: Permit, a: Answer) returns (verdict: Verdict)
      modifies this`permits, this`ledger
      ensures Gets(old(View()), Task(SubmitJob(o, p), worker, Claim), a,
                   View(), Task(SubmitJob(o, p), worker, Stand(verdict, MarkSubmitting)))
      ensures verdict.Proceed? <==> p.id in old(permits) && Unspent(old(permits)[p.id], a.dbNow) && o.id in orders
      ensures verdict.Proceed? ==>
                permits == old(permits)[p.id := old(permits)[p.id].(used := true, claimedBy := Some(o.id))]
                && ledger == old(ledger)[o.id := InFlight(old(ledger), o.id, p.id)]
      ensures verdict.TurnedAway? ==>
                !Contacted(verdict.outcome) && verdict.outcome != PermitRefused(LeaseNotAcquired)
                && View() == old(View())
                && (p.id in permits ==> TurnedAwayFor(verdict.outcome, View(), worker, o, p, a))
    {
      ghost var g, t := View(), Task(SubmitJob(o, p), worker, Claim);
      GetsHere(g, t, a);
      GetsNext(g, t, a, g, t);
      if p.id !in permits || permits[p.id].used || permits[p.id].permit.expiresAt <= a.dbNow {
        return TurnedAway(PermitRefused(PermitUsed), true);
      }
      if o.id !in orders { return TurnedAway(PermitRefused(AtomicClaimFailed), true); }
      permits := permits[p.id := permits[p.id].(used := true, claimedBy := Some(o.id))];
      ledger := Recorded(ledger, o.id, p.id);
      return Proceed;
    }

    /** In-flight in the seen log, in-flight in the ledger, then the one call to the venue. */
    method Send(o: Order, p: Permit, ghost a: Answer)
      modifies this`ledger, this`seen, this`calls
      ensures Gets(old(View()), Task(SubmitJob(o, p), worker, MarkSubmitting), a,
                   View(), Task(SubmitJob(o, p), worker, Await))
      ensures calls == old(calls) + [Call(o, p, worker)]
      ensures seen == old(seen)[o.id := Submitting] && ledger == old(ledger)[o.id := InFlight(old(ledger), o.id, p.id)]
      ensures View() == old(View()).(seen := seen, ledger := ledger, calls := calls)
    {
      seen := seen[o.id := Submitting];
      ledger := Recorded(ledger, o.id, p.id);
      calls := calls + [Call(o, p, worker)];
      SendGets(old(View()), worker, o, p, a);
    }

    // ----- settlement -----

    method MarkSeen(id: Id, state: Lifecycle, ghost a: Answer)
      modifies this`seen
      ensures View() == Do(old(View()), worker, id, Mark(state), a)
    {
      seen := seen[id := state];
    }

    method UpdateState(id: Id, state: Lifecycle, ghost a: Answer)
      modifies this`ledger
      ensures View() == Do(old(View()), worker, id, Update(state), a)
    {
      if id in ledger { ledger := ledger[id := ledger[id].(state := state)]; }
    }

    method ResolveRow(id: Id, r: OrderResult, ghost a: Answer)
      modifies this`ledger
      ensures View() == Do(old(View()), worker, id, Resolve(r), a)
    {
      if id in ledger { ledger := ledger[id := Resolved(ledger[id], r)]; }
    }

    /**
     `consumeFill`. The counters never fall and never lag the report, the cash handed back is exactly what
     the counter rose by, and a report that is no news, a replay among them, hands back nothing.
     */
    method CountFillRow(id: Id, shares: int, cash: int, ghost a: Answer) returns (delta: int)
      modifies this`ledger
      ensures ledger.Keys == old(ledger).Keys && delta >= 0
      ensures forall other :: other in ledger && other != id ==> ledger[other] == old(ledger)[other]
      ensures id in ledger ==>
                && ledger[id].fillCash >= old(ledger)[id].fillCash && ledger[id].fillCash >= cash
                && ledger[id].fillShares >= old(ledger)[id].fillShares && ledger[id].fillShares >= shares
                && ledger[id].fillCash == old(ledger)[id].fillCash + delta
                && (delta == 0 <==> cash <= old(ledger)[id].fillCash)
                && Counted(ledger[id], shares, cash) == (ledger[id], 0)
      ensures View() == Do(old(View()), worker, id, Seed(shares, cash), a)
      ensures delta == if id in old(ledger) then Counted(old(ledger)[id], shares, cash).1 else 0
    {
      delta := 0;
      if id in ledger {
        var (row, rise) := Counted(ledger[id], shares, cash);
        ledger := ledger[id := row];
        delta := rise;
      }
    }

    method SettleUnsent(o: Order, p: Permit, ghost a: Answer)
      modifies this`seen, this`ledger, this`lease, bank
      ensures bank.View() == MoneyAfter(old(bank.View()), o, p, PermitRefused(NothingSent), a.bankNow)
      ensures View() == DoAll(old(View()), worker, o.id,
                [Mark(DefinitiveReject), Update(DefinitiveReject), Resolve(REJECTED_RESULT)]
                + Releases(p.reservationIds, Money.RejectedReason) + [Unlease, Unlease], a)
    {
      ghost var g0, start := View(), [Mark(DefinitiveReject), Update(DefinitiveReject), Resolve(REJECTED_RESULT)];
      MarkSeen(o.id, DefinitiveReject, a);
      UpdateState(o.id, DefinitiveReject, a);
      ResolveRow(o.id, REJECTED_RESULT, a);
      DoThree(g0, worker, o.id, start[0], start[1], start[2], a);
      ReleaseAll(p.reservationIds, Money.RejectedReason, o.id, a);
      ghost var released := start + Releases(p.reservationIds, Money.RejectedReason);
      DoAllAdds(g0, worker, o.id, start, Releases(p.reservationIds, Money.RejectedReason), a);
      ReleaseLease();
      ReleaseLease();
      DoTwo(DoAll(g0, worker, o.id, released, a), worker, o.id, Unlease, Unlease, a);
      DoAllAdds(g0, worker, o.id, released, [Unlease, Unlease], a);
    }

    method SettleUnknown(o: Order, ghost a: Answer)
      modifies this`seen, this`ledger, this`lease
      ensures View() == DoAll(old(View()), worker, o.id,
                [Mark(SubmissionUnknown), Update(SubmissionUnknown), Unlease, Unlease], a)
    {
      ghost var g0 := View();
      MarkSeen(o.id, SubmissionUnknown, a);
      UpdateState(o.id, SubmissionUnknown, a);
      DoTwo(g0, worker, o.id, Mark(SubmissionUnknown), Update(SubmissionUnknown), a);
      ghost var g1 := View();
      ReleaseLease();
      ReleaseLease();
      DoTwo(g1, worker, o.id, Unlease, Unlease, a);
      DoAllAdds(g0, worker, o.id, [Mark(SubmissionUnknown), Update(SubmissionUnknown)], [Unlease, Unlease], a);
      assert [Mark(SubmissionUnknown), Update(SubmissionUnknown)] + [Unlease, Unlease]
          == [Mark(SubmissionUnknown), Update(SubmissionUnknown), Unlease, Unlease];
    }

    method SettleRefused(o: Order, p: Permit, ghost a: Answer)
      modifies this`ledger, this`lease, bank
      ensures bank.View() == MoneyAfter(old(bank.View()), o, p, PermitRefused(RefusedByVenue), a.bankNow)
      ensures View() == DoAll(old(View()), worker, o.id,
                [Update(DefinitiveReject), Unlease] + Releases(p.reservationIds, Money.RejectedReason) + [Unlease], a)
    {
      ghost var g0, start := View(), [Update(DefinitiveReject), Unlease];
      UpdateState(o.id, DefinitiveReject, a);
      ReleaseLease();
      DoTwo(g0, worker, o.id, start[0], start[1], a);
      ReleaseAll(p.reservationIds, Money.RejectedReason, o.id, a);
      DoAllAdds(g0, worker, o.id, start, Releases(p.reservationIds, Money.RejectedReason), a);
      ReleaseLease();
      DoAllNext(g0, worker, o.id, start + Releases(p.reservationIds, Money.RejectedReason), Unlease, a);
    }

    method AccountFill(o: Order, p: Permit, r: OrderResult, a: Answer)
      modifies this`ledger, bank
      ensures bank.View() == MoneyAfter(old(bank.View()), o, p, Submitted(r, AckState(r)), a.bankNow)
      ensures View() == DoAll(old(View()), worker, o.id, FillActions(o, p, r), a)
    {
      ghost var g0 := View();
      if r.filled > 0 {
        var fillPrice := if r.average.Some? then r.average.value else o.price;
        var consumedCash := CashNeededFor(r.filled, fillPrice);
        ConsumeAll(p.reservationIds, consumedCash, o.id, a);
        var _ := CountFillRow(o.id, r.filled, consumedCash, a);
        DoAllNext(g0, worker, o.id, Spends(p.reservationIds, consumedCash), Seed(r.filled, consumedCash), a);
      }
    }

    method SettleAcked(o: Order, p: Permit, r: OrderResult, a: Answer)
      modifies this`seen, this`ledger, this`lease, bank
      ensures bank.View() == MoneyAfter(old(bank.View()), o, p, Submitted(r, AckState(r)), a.bankNow)
      ensures View() == DoAll(old(View()), worker, o.id,
                [Update(AckState(r)), Mark(AckState(r)), Unlease, Resolve(r)] + FillActions(o, p, r) + [Unlease], a)
    {
      ghost var g0, start := View(), [Update(AckState(r)), Mark(AckState(r)), Unlease];
      UpdateState(o.id, AckState(r), a);
      MarkSeen(o.id, AckState(r), a);
      ReleaseLease();
      DoThree(g0, worker, o.id, start[0], start[1], start[2], a);
      ResolveRow(o.id, r, a);
      DoAllNext(g0, worker, o.id, start, Resolve(r), a);
      AccountFill(o, p, r, a);
      DoAllAdds(g0, worker, o.id, start + [Resolve(r)], FillActions(o, p, r), a);
      ReleaseLease();
      DoAllNext(g0, worker, o.id, start + [Resolve(r)] + FillActions(o, p, r), Unlease, a);
      assert start + [Resolve(r)] == [Update(AckState(r)), Mark(AckState(r)), Unlease, Resolve(r)];
    }

    /** What follows the answer, write by write. */
    method Carry(o: Order, p: Permit, a: Answer) returns (out: Outcome)
      modifies this`seen, this`ledger, this`lease, bank
      ensures bank.View() == MoneyAfter(old(bank.View()), o, p, out, a.bankNow)
      ensures Contacted(out)
      ensures AfterAnswer(o, p, a.placed).Doing? && AfterAnswer(o, p, a.placed).next == Done(out)
      ensures View() == DoAll(old(View()), worker, o.id, AfterAnswer(o, p, a.placed).todo, a)
    {
      match a.placed
      case NotSent(reason) =>
        if ProvedNothingSent(reason) {
          SettleUnsent(o, p, a);
          return PermitRefused(NothingSent);
        }
        ghost var g0 := View();
        ReleaseLease();
        ReleaseLease();
        DoTwo(g0, worker, o.id, Unlease, Unlease, a);
        return NeedsReconciliation;
      case OutcomeUnknown =>
        SettleUnknown(o, a);
        return NeedsReconciliation;
      case Refusal =>
        SettleRefused(o, p, a);
        return PermitRefused(RefusedByVenue);
      case Acked(r) =>
        SettleAcked(o, p, r, a);
        return Submitted(r, AckState(r));
    }

    /**
     From the answer on: what is remembered of the order, and of no other, is what the answer says; and only proof that
     nothing left, or a refusal by the venue, releases.
     */
    method Settle(o: Order, p: Permit, a: Answer) returns (out: Outcome)
      modifies this`seen, this`ledger, this`lease, bank
      ensures AnswerEnds(a.placed, out)
      ensures o.id in old(ledger) && o.id in old(seen) ==>
                && o.id in ledger && o.id in seen
                && AnswerLeaves(a.placed, old(seen)[o.id], old(ledger)[o.id], seen[o.id], ledger[o.id])
      ensures OthersStay(o.id, old(seen), old(ledger), seen, ledger)
      ensures permits == old(permits) && (HeldBy(old(lease), worker) ==> lease == None)
      ensures NeverLeft(a.placed) || a.placed.Refusal? ==>
                bank.View() == ReleaseEach(old(bank.View()), p.reservationIds, Money.RejectedReason)
      ensures Open(a.placed) ==> bank.View() == old(bank.View())
      ensures bank.View() == MoneyAfter(old(bank.View()), o, p, out, a.bankNow)
      ensures Contacted(out)
      ensures AfterAnswer(o, p, a.placed).Doing? && AfterAnswer(o, p, a.placed).next == Done(out)
      ensures View() == DoAll(old(View()), worker, o.id, AfterAnswer(o, p, a.placed).todo, a)
    {
      AnswerIsKept(View(), worker, o, p, a);
      AnswerUnleases(View(), worker, o, p, a);
      AnswerEndsSo(o, p, a.placed);
      out := Carry(o, p, a);
    }

    /** Turned away: the lease is given up, once or twice. */
    method GiveUp(v: Verdict, ghost id: Id, ghost a: Answer) returns (out: Outcome)
      requires v.TurnedAway?
      modifies this`lease
      ensures out == v.outcome
      ensures View() == old(View()).(lease := lease) && (HeldBy(old(lease), worker) ==> lease == None)
      ensures View() == DoAll(old(View()), worker, id, if v.early then [Unlease, Unlease] else [Unlease], a)
    {
      ghost var g0 := View();
      ReleaseLease();
      if v.early {
        ReleaseLease();
        DoTwo(g0, worker, id, Unlease, Unlease, a);
      } else {
        DoAllNext(g0, worker, id, [], Unlease, a);
        assert [] + [Unlease] == [Unlease];
      }
      return v.outcome;
    }

    /** The request, and what follows its answer. */
    method Request(o: Order, p: Permit, a: Answer) returns (out: Outcome)
      modifies this`seen, this`ledger, this`lease, this`calls, bank
      ensures Gets(old(View()), Task(SubmitJob(o, p), worker, MarkSubmitting), a,
                   View(), Task(SubmitJob(o, p), worker, Done(out)))
      ensures bank.View() == MoneyAfter(old(bank.View()), o, p, out, a.bankNow)
      ensures Contacted(out) && calls == old(calls) + [Call(o, p, worker)]
      ensures permits == old(permits) && (HeldBy(old(lease), worker) ==> lease == None)
      ensures OthersStay(o.id, old(seen), old(ledger), seen, ledger)
      ensures Heard(old(View()), o, p, a, View(), out)
    {
      ghost var g0 := View();
      Send(o, p, a);
      ghost var g1 := View();
      out := Settle(o, p, a);
      GetsAnswered(g0, o, p, worker, MarkSubmitting, g1, a);
    }

    /** From the claim on. */
    method Commit(o: Order, p: Permit, a: Answer) returns (out: Outcome)
      modifies this, bank
      ensures Gets(old(View()), Task(SubmitJob(o, p), worker, Claim), a,
                   View(), Task(SubmitJob(o, p), worker, Done(out)))
      ensures bank.View() == MoneyAfter(old(bank.View()), o, p, out, a.bankNow)
      ensures calls == old(calls) + if Contacted(out) then [Call(o, p, worker)] else []
      ensures p.id in old(permits) ==> Concluded(old(View()), worker, o, p, a, View(), out)
      ensures Contacted(out) <==> p.id in old(permits) && Unspent(old(permits)[p.id], a.dbNow) && o.id in orders
    {
      ghost var g0, job := View(), SubmitJob(o, p);
      var verdict := ClaimPermit(o, p, a);
      ghost var g1 := View();
      if verdict.TurnedAway? {
        out := GiveUp(verdict, o.id, a);
        GetsRefused(g0, job, worker, Claim, g1, verdict, a);
        return;
      }
      out := Request(o, p, a);
      RequestedAfterClaim(g0, g1, o, p, a, View(), out);
      GetsTrans(g0, Task(job, worker, Claim), a, g1, Task(job, worker, MarkSubmitting), View(), Task(job, worker, Done(out)));
    }

    /** `submitInner` up to the claim. */
    method Admit(o: Order, p: Permit, a: Answer) returns (verdict: Verdict)
      modifies this`permits
      ensures Gets(old(View()), Task(SubmitJob(o, p), worker, Dedupe), a,
                   View(), Task(SubmitJob(o, p), worker, Stand(verdict, Claim)))
      ensures View() == old(View()).(permits := permits) && Admitted(old(View()), worker, o, p, a, permits, verdict)
    {
      ghost var g0, t := View(), Task(SubmitJob(o, p), worker, Dedupe);
      verdict := Recognise(o, p, a);
      if verdict.TurnedAway? { return; }
      Save(p);
      GetsNext(g0, t, a, g0, t.(pc := FirstSave));
      ghost var g1 := View();
      verdict := Examine(o, p, a);
      GetsTrans(g0, t, a, g1, t.(pc := Validate), g1, t.(pc := Stand(verdict, SecondSave)));
      if verdict.TurnedAway? { return; }
      Save(p);
      GetsNext(g0, t, a, g1, t.(pc := SecondSave));
    }

    /** `submitInner`, with the lease given up at the end. */
    method SubmitInner(o: Order, p: Permit, a: Answer) returns (out: Outcome)
      modifies this, bank
      ensures Gets(old(View()), Task(SubmitJob(o, p), worker, Dedupe), a,
                   View(), Task(SubmitJob(o, p), worker, Done(out)))
      ensures bank.View() == MoneyAfter(old(bank.View()), o, p, out, a.bankNow)
      ensures calls == old(calls) + if Contacted(out) then [Call(o, p, worker)] else []
      ensures Concluded(old(View()), worker, o, p, a, View(), out)
      ensures Contacted(out) <==> Ready(old(View()), worker, o, p, a)
    {
      ghost var g0, job := View(), SubmitJob(o, p);
      var verdict := Admit(o, p, a);
      ghost var g1 := View();
      if verdict.TurnedAway? {
        out := GiveUp(verdict, o.id, a);
        GetsRefused(g0, job, worker, Dedupe, g1, verdict, a);
        ConcludedAtOnce(g0, g1, worker, o, p, a, View(), verdict);
        return;
      }
      out := Commit(o, p, a);
      ConcludedOnceFiled(g0, g1, worker, o, p, a, View(), out);
      GetsTrans(g0, Task(job, worker, Dedupe), a, g1, Task(job, worker, Claim), View(), Task(job, worker, Done(out)));
    }

    /** `submit`. */
    method Submit(o: Order, p: Permit, a: Answer) returns (out: Outcome)
      modifies this, bank
      ensures Gets(old(View()), Task(SubmitJob(o, p), worker, Acquire), a,
                   View(), Task(SubmitJob(o, p), worker, Done(out)))
      ensures bank.View() == MoneyAfter(old(bank.View()), o, p, out, a.bankNow)
      ensures calls == old(calls) + if Contacted(out) then [Call(o, p, worker)] else []
      ensures Contacted(out) <==> Goes(old(View()), worker, o, p, a)
      ensures if Contacted(out) then Requested(old(View()), o, p, a, View(), out)
              else TurnedAwayFor(out, old(View()), worker, o, p, a) && Untouched(old(View()), p, View())
      ensures OthersStay(o.id, old(seen), old(ledger), seen, ledger)
      ensures lease == if out == PermitRefused(LeaseNotAcquired) then old(lease) else None
    {
      ghost var g0, t0 := View(), Task(SubmitJob(o, p), worker, Acquire);
      GetsHere(g0, t0, a);
      GetsNext(g0, t0, a, g0, t0);
      var leaseAcquired := AcquireLease(a.dbNow);
      if !leaseAcquired { return PermitRefused(LeaseNotAcquired); }
      ghost var g1 := View();
      out := SubmitInner(o, p, a);
      ConcludedUnderLease(g0, g1, worker, o, p, a, View(), out);
      GetsTrans(g0, t0, a, g1, t0.(pc := Dedupe), View(), t0.(pc := Done(out)));
    }

    // ----- reconcile -----

    method ReleaseIfHeld(held: bool, ghost id: Id, ghost a: Answer)
      modifies this`lease
      ensures if held && HeldBy(old(lease), worker) then lease == None else lease == old(lease)
      ensures View() == DoAll(old(View()), worker, id, IfHeld(held), a)
    {
      ghost var g0 := View();
      if held {
        ReleaseLease();
        DoAllNext(g0, worker, id, [], Unlease, a);
        assert [] + [Unlease] == [Unlease];
      }
    }

    /** The reservations bound to an order's permit, released or consumed. */
    method SettleMoney(id: Id, what: Settlement, a: Answer)
      modifies bank
      ensures View() == DoAll(old(View()), worker, id, MoneyActions(what, BoundTo(old(View()), id)), a)
      ensures what.Freeing? ==> bank.View() == ReleaseEach(old(bank.View()), BoundTo(old(View()), id), what.reason)
    {
      if id in ledger && ledger[id].permitId != "" {
        var permitId := ledger[id].permitId;
        if permitId in permits {
          var ids := permits[permitId].permit.reservationIds;
          match what {
            case Freeing(reason) => ReleaseAll(ids, reason, id, a);
            case Spending(cash) => ConsumeAll(ids, cash, id, a);
          }
        }
      }
    }

    /** The venue reports the order canceled, rejected or expired. */
    method SettleTerminal(id: Id, r: OrderResult, held: bool, a: Answer)
      modifies this`seen, this`ledger, this`lease, bank
      ensures View() == Terminated(old(View()), worker, id, r, held, a)
      ensures bank.View() == ReleaseEach(old(bank.View()), BoundTo(old(View()), id), ReleaseReason(r))
      ensures if held && HeldBy(old(lease), worker) then lease == None else lease == old(lease)
    {
      ghost var g0 := View();
      MarkSeen(id, DefinitiveReject, a);
      ResolveRow(id, r, a);
      DoTwo(g0, worker, id, Mark(DefinitiveReject), Resolve(r), a);
      SettleMoney(id, Freeing(ReleaseReason(r)), a);
      ReleaseIfHeld(held, id, a);
    }

    /** The venue reports the order working: consume what is newly filled, then record the answer. */
    method SettleWorking(id: Id, r: OrderResult, held: bool, a: Answer)
      modifies this`seen, this`ledger, this`lease, bank
      ensures View() == Worked(old(View()), worker, id, r, held, a)
      ensures if held && HeldBy(old(lease), worker) then lease == None else lease == old(lease)
    {
      ghost var g0 := View();
      MarkSeen(id, Acknowledged, a);
      if r.filled > 0 && r.average.Some? && r.average.value > 0 {
        var cumulativeCash := CashNeededFor(r.filled, r.average.value);
        var delta := CountFillRow(id, r.filled, cumulativeCash, a);
        if delta > 0 {
          SettleMoney(id, Spending(delta), a);
        }
      }
      ghost var g1 := View();
      ResolveRow(id, r, a);
      ghost var g2 := View();
      ReleaseIfHeld(held, id, a);
      DoAllNext(g1, worker, id, [], Resolve(r), a);
      assert [] + [Resolve(r)] == [Resolve(r)];
      DoAllAdds(g1, worker, id, [Resolve(r)], IfHeld(held), a);
    }

    /** Whatever the venue says, write by write. */
    method Hear(id: Id, held: bool, current: Lifecycle, a: Answer) returns (out: Lifecycle)
      modifies this`seen, this`ledger, this`lease, this`queries, bank
      ensures (View(), out) == Polled(old(View()), worker, id, held, current, a)
      ensures queries == old(queries) + [id]
      ensures if held && HeldBy(old(lease), worker) then lease == None else lease == old(lease)
      ensures MoneyTold(old(View()), id, a.status, View())
    {
      queries := queries + [id];
      match a.status
      case NoRecord =>
        ReleaseIfHeld(held, id, a);
        return current;
      case Unreachable =>
        ReleaseIfHeld(held, id, a);
        return SubmissionUnknown;
      case Found(r) =>
        if r.orderStatus == Some(Canceled) || r.orderStatus == Some(Rejected) || r.orderStatus == Some(Expired) {
          SettleTerminal(id, r, held, a);
          return DefinitiveReject;
        }
        if r.submitStatus == Some(AcknowledgedStatus) {
          SettleWorking(id, r, held, a);
          return Acknowledged;
        }
        ReleaseIfHeld(held, id, a);
        return SubmissionUnknown;
    }

    /** From the query to its end. */
    method Poll(id: Id, held: bool, current: Lifecycle, a: Answer) returns (out: Lifecycle)
      modifies this`seen, this`ledger, this`lease, this`queries, bank
      ensures queries == old(queries) + [id]
      ensures Gets(old(View()), Task(ReconcileJob(id), worker, Query(held, current)), a,
                   View(), Task(ReconcileJob(id), worker, Done(State(out))))
      ensures Told(old(View()), id, a.status, current, View(), out) && MoneyTold(old(View()), id, a.status, View())
      ensures OthersStay(id, old(seen), old(ledger), seen, ledger)
      ensures if held && HeldBy(old(lease), worker) then lease == None else lease == old(lease)
    {
      GetsPolled(View(), id, worker, held, current, a);
      PolledTells(View(), worker, id, held, current, a);
      out := Hear(id, held, current, a);
    }

    /** `reconcile`: it goes on without the lease when it cannot have it, and asks the venue about unresolved rows only. */
    method Reconcile(id: Id, a: Answer) returns (out: Lifecycle)
      modifies this, bank
      ensures calls == old(calls) && cancels == old(cancels) && permits == old(permits)
      ensures queries == old(queries) + if NeedsReconcile(old(View()), id) then [id] else []
      ensures var current := if id in old(seen) then old(seen)[id] else NotSeen;
              if id in old(ledger) && !old(ledger)[id].resolved
              then Told(old(View()), id, a.status, current, View(), out) && MoneyTold(old(View()), id, a.status, View())
              else out == current && seen == old(seen) && ledger == old(ledger) && bank.View() == old(bank.View())
      ensures OthersStay(id, old(seen), old(ledger), seen, ledger)
      ensures lease == if LeaseFree(old(lease), worker, a.dbNow) then None else old(lease)
      ensures Gets(old(View()), Task(ReconcileJob(id), worker, Acquire), a,
                   View(), Task(ReconcileJob(id), worker, Done(State(out))))
    {
      ghost var g0, t0 := View(), Task(ReconcileJob(id), worker, Acquire);
      var leaseAcquired := AcquireLease(a.dbNow);
      ghost var g1 := View();
      var current := if id in seen then seen[id] else NotSeen;
      var ledgerNeedsIt := id in ledger && !ledger[id].resolved;
      GetsQuery(g0, id, worker, a);
      if !ledgerNeedsIt {
        ReleaseIfHeld(leaseAcquired, id, a);
        return current;
      }
      out := Poll(id, leaseAcquired, current, a);
      GetsTrans(g0, t0, a, g1, t0.(pc := Query(leaseAcquired, current)), View(), t0.(pc := Done(State(out))));
    }

    // ----- cancel -----

    /**
     `cancel`. It reaches the venue exactly when the lease and the mode allow it and the order's row is
     absent or resolved; a confirmed cancel releases the order's reservations at once, and nothing else moves money.
     */
    method Cancel(id: Id, a: Answer) returns (out: Outcome)
      modifies this, bank
      ensures CancelEnds(old(View()), worker, id, a, out) && CancelLeaves(old(View()), worker, id, a, View(), out)
      ensures Gets(old(View()), Task(CancelJob(id), worker, Acquire), a,
                   View(), Task(CancelJob(id), worker, Done(out)))
    {
      GetsCancelled(View(), id, worker, a);
      var leaseAcquired := AcquireLease(a.dbNow);
      if !leaseAcquired { return CancelRefused(LeaseNotAcquired); }
      out := CancelHeld(id, a);
    }

    /** Under the lease. */
    method CancelHeld(id: Id, a: Answer) returns (out: Outcome)
      modifies this`ledger, this`lease, this`cancels, bank
      ensures CancelEnds(old(View()).(lease := None), worker, id, a, out)
      ensures old(lease) == Some(Lease(worker.holder, worker.epoch, a.dbNow + LEASE_TTL)) ==>
                CancelLeaves(old(View()).(lease := None), worker, id, a, View(), out)
      ensures (View(), out) == CancelledFrom(old(View()), worker, id, a)
    {
      if !MayCancel(a.mode) {
        ReleaseIfHeld(true, id, a);
        return CancelRefused(ModeForbids);
      }
      if id in ledger && !ledger[id].resolved { return CancelThrew; }
      out := AskToCancel(id, a);
    }

    /** The request to the venue, and the settlement of a confirmation. */
    method AskToCancel(id: Id, a: Answer) returns (out: Outcome)
      modifies this`ledger, this`lease, this`cancels, bank
      ensures cancels == old(cancels) + [id] && out == if a.cancelled then CancelConfirmed else CancelFailed
      ensures bank.View() == if a.cancelled
                             then ReleaseEach(old(bank.View()), BoundTo(old(View()), id), Money.CancelledReason)
                             else old(bank.View())
      ensures ledger == if a.cancelled && id in old(ledger)
                        then old(ledger)[id := old(ledger)[id].(state := DefinitiveReject, resolved := true)] else old(ledger)
      ensures HeldBy(old(lease), worker) ==> lease == None
      ensures View() == if a.cancelled then CancelSettled(Cancelling(old(View()), id), worker, id, a)
                        else DoAll(Cancelling(old(View()), id), worker, id, IfHeld(true), a)
    {
      ghost var g0 := View();
      cancels := cancels + [id];
      if !a.cancelled {
        ReleaseIfHeld(true, id, a);
        return CancelFailed;
      }
      ResolveRow(id, CANCELED_RESULT, a);
      assert BoundTo(View(), id) == BoundTo(g0, id);
      SettleMoney(id, Freeing(Money.CancelledReason), a);
      ReleaseIfHeld(true, id, a);
      return CancelConfirmed;
    }
  }

  // ----- where reconcile and cancel lead, in closed form -----

  /** The reservations an order's money is settled on: those of the permit its ledger row names. */
  function BoundTo(g: Shared, id: Id): seq<Id> {
    if id in g.ledger && g.ledger[id].permitId != "" && g.ledger[id].permitId in g.permits
    then g.permits[g.ledger[id].permitId].permit.reservationIds else []
  }

  function Settled(g: Shared, w: Worker, id: Id, what: Settlement, a: Answer): Shared {
    DoAll(g, w, id, MoneyActions(what, BoundTo(g, id)), a)
  }

  function ReleaseReason(r: OrderResult): Money.Reason {
    if r.orderStatus == Some(Canceled) then Money.CancelledReason else Money.RejectedReason
  }

  function Terminated(g: Shared, w: Worker, id: Id, r: OrderResult, held: bool, a: Answer): Shared {
    var g1 := DoAll(g, w, id, [Mark(DefinitiveReject), Resolve(r)], a);
    DoAll(Settled(g1, w, id, Freeing(ReleaseReason(r)), a), w, id, IfHeld(held), a)
  }

  /** The fill counters first, then what they rose by. */
  function FillCounted(g: Shared, w: Worker, id: Id, shares: int, cash: int, a: Answer): Shared {
    var delta := if id in g.ledger then Counted(g.ledger[id], shares, cash).1 else 0;
    var g1 := Do(g, w, id, Seed(shares, cash), a);
    if delta > 0 then Settled(g1, w, id, Spending(delta), a) else g1
  }

  function Worked(g: Shared, w: Worker, id: Id, r: OrderResult, held: bool, a: Answer): Shared {
    var g1 := Do(g, w, id, Mark(Acknowledged), a);
    var g2 := if r.filled > 0 && r.average.Some? && r.average.value > 0
              then FillCounted(g1, w, id, r.filled, CashNeededFor(r.filled, r.average.value), a) else g1;
    DoAll(g2, w, id, [Resolve(r)] + IfHeld(held), a)
  }

  lemma {:induction false} GetsReservations(g: Shared, job: Job, w: Worker, permitId: Id, what: Settlement, next: Pc, a: Answer)
    requires permitId in g.permits
    ensures var todo := MoneyActions(what, g.permits[permitId].permit.reservationIds);
            Gets(g, Task(job, w, FindReservations(permitId, what, next)), a,
                 DoAll(g, w, JobOrder(job), todo, a), Task(job, w, next))
  {
    var t := Task(job, w, FindReservations(permitId, what, next));
    var todo := MoneyActions(what, g.permits[permitId].permit.reservationIds);
    GetsHere(g, t, a);
    GetsNext(g, t, a, g, t);
    GetsDone(g, job, w, todo, next, a);
    GetsTrans(g, t, a, g, t.(pc := Doing(todo, next)), DoAll(g, w, JobOrder(job), todo, a), t.(pc := next));
  }

  lemma {:induction false} GetsNoPermit(g: Shared, job: Job, w: Worker, what: Settlement, next: Pc, a: Answer)
    requires var id := JobOrder(job); !(id in g.ledger && g.ledger[id].permitId != "")
    ensures Gets(g, Task(job, w, FindPermit(what, next)), a, g, Task(job, w, next))
  {
    var t := Task(job, w, FindPermit(what, next));
    GetsHere(g, t, a);
    GetsNext(g, t, a, g, t);
  }

  lemma {:induction false} GetsLostPermit(g: Shared, job: Job, w: Worker, permitId: Id, what: Settlement, next: Pc, a: Answer)
    requires permitId !in g.permits
    ensures Gets(g, Task(job, w, FindReservations(permitId, what, next)), a, g, Task(job, w, next))
  {
    var t := Task(job, w, FindReservations(permitId, what, next));
    GetsHere(g, t, a);
    GetsNext(g, t, a, g, t);
  }

  lemma {:induction false} GetsUnbound(g: Shared, job: Job, w: Worker, what: Settlement, next: Pc, a: Answer)
    requires var id := JobOrder(job); !(id in g.ledger && g.ledger[id].permitId != "" && g.ledger[id].permitId in g.permits)
    ensures Gets(g, Task(job, w, FindPermit(what, next)), a, g, Task(job, w, next))
  {
    var t, id := Task(job, w, FindPermit(what, next)), JobOrder(job);
    if id in g.ledger && g.ledger[id].permitId != "" {
      var t1 := t.(pc := FindReservations(g.ledger[id].permitId, what, next));
      GetsHere(g, t, a);
      GetsNext(g, t, a, g, t);
      GetsLostPermit(g, job, w, g.ledger[id].permitId, what, next, a);
      GetsTrans(g, t, a, g, t1, g, t.(pc := next));
    } else {
      GetsNoPermit(g, job, w, what, next, a);
    }
  }

  lemma {:induction false} GetsSettled(g: Shared, job: Job, w: Worker, what: Settlement, next: Pc, a: Answer)
    ensures Gets(g, Task(job, w, FindPermit(what, next)), a,
                 Settled(g, w, JobOrder(job), what, a), Task(job, w, next))
  {
    var t, id := Task(job, w, FindPermit(what, next)), JobOrder(job);
    if id in g.ledger && g.ledger[id].permitId != "" && g.ledger[id].permitId in g.permits {
      var t1 := t.(pc := FindReservations(g.ledger[id].permitId, what, next));
      GetsHere(g, t, a);
      GetsNext(g, t, a, g, t);
      GetsReservations(g, job, w, g.ledger[id].permitId, what, next, a);
      GetsTrans(g, t, a, g, t1, Settled(g, w, id, what, a), t.(pc := next));
    } else {
      GetsUnbound(g, job, w, what, next, a);
      assert MoneyActions(what, []) == [];
    }
  }

  lemma {:induction false} GetsFillCounted(g: Shared, job: Job, w: Worker, shares: int, cash: int, next: Pc, a: Answer)
    ensures Gets(g, Task(job, w, CountFill(shares, cash, next)), a,
                 FillCounted(g, w, JobOrder(job), shares, cash, a), Task(job, w, next))
  {
    var t, id := Task(job, w, CountFill(shares, cash, next)), JobOrder(job);
    GetsHere(g, t, a);
    GetsNext(g, t, a, g, t);
    if id in g.ledger && Counted(g.ledger[id], shares, cash).1 > 0 {
      var (g1, t1) := Step(g, t, a);
      GetsSettled(g1, job, w, Spending(Counted(g.ledger[id], shares, cash).1), next, a);
      GetsTrans(g, t, a, g1, t1, FillCounted(g, w, id, shares, cash, a), t.(pc := next));
    }
  }

  lemma {:induction false} GetsTerminated(g: Shared, job: Job, w: Worker, r: OrderResult, held: bool, out: Outcome, a: Answer)
    ensures Gets(g, Task(job, w, Doing([Mark(DefinitiveReject), Resolve(r)],
                                       FindPermit(Freeing(ReleaseReason(r)), Doing(IfHeld(held), Done(out))))), a,
                 Terminated(g, w, JobOrder(job), r, held, a), Task(job, w, Done(out)))
  {
    var last := Doing(IfHeld(held), Done(out));
    var settle := FindPermit(Freeing(ReleaseReason(r)), last);
    var todo := [Mark(DefinitiveReject), Resolve(r)];
    var t, id := Task(job, w, Doing(todo, settle)), JobOrder(job);
    var g1 := DoAll(g, w, id, todo, a);
    GetsDone(g, job, w, todo, settle, a);
    var g2 := Settled(g1, w, id, Freeing(ReleaseReason(r)), a);
    GetsSettled(g1, job, w, Freeing(ReleaseReason(r)), last, a);
    GetsTrans(g, t, a, g1, t.(pc := settle), g2, t.(pc := last));
    GetsDone(g2, job, w, IfHeld(held), Done(out), a);
    GetsTrans(g, t, a, g2, t.(pc := last), Terminated(g, w, id, r, held, a), t.(pc := Done(out)));
  }

  lemma {:induction false} GetsWorked(g: Shared, id: Id, w: Worker, r: OrderResult, held: bool, a: Answer)
    requires r.submitStatus == Some(AcknowledgedStatus)
    requires !(r.orderStatus == Some(Canceled) || r.orderStatus == Some(Rejected) || r.orderStatus == Some(Expired))
    ensures Gets(g, Task(ReconcileJob(id), w, AfterStatus(held, NotSeen, Found(r))), a,
                 Worked(g, w, id, r, held, a), Task(ReconcileJob(id), w, Done(State(Acknowledged))))
  {
    var job := ReconcileJob(id);
    var todo := [Resolve(r)] + IfHeld(held);
    var rest := Doing(todo, Done(State(Acknowledged)));
    var fills := r.filled > 0 && r.average.Some? && r.average.value > 0;
    var mid := if fills then CountFill(r.filled, CashNeededFor(r.filled, r.average.value), rest) else rest;
    var t := Task(job, w, Doing([Mark(Acknowledged)], mid));
    var g1 := Do(g, w, id, Mark(Acknowledged), a);
    GetsDone(g, job, w, [Mark(Acknowledged)], mid, a);
    DoAllNext(g, w, id, [], Mark(Acknowledged), a);
    assert [] + [Mark(Acknowledged)] == [Mark(Acknowledged)];
    var g2 := if fills then FillCounted(g1, w, id, r.filled, CashNeededFor(r.filled, r.average.value), a) else g1;
    if fills {
      GetsFillCounted(g1, job, w, r.filled, CashNeededFor(r.filled, r.average.value), rest, a);
      GetsTrans(g, t, a, g1, t.(pc := mid), g2, t.(pc := rest));
    }
    GetsDone(g2, job, w, todo, Done(State(Acknowledged)), a);
    GetsTrans(g, t, a, g2, t.(pc := rest), Worked(g, w, id, r, held, a), t.(pc := Done(State(Acknowledged))));
  }

  function Asked(g: Shared, id: Id): Shared { g.(queries := g.queries + [id]) }

  function Polled(g: Shared, w: Worker, id: Id, held: bool, current: Lifecycle, a: Answer): (Shared, Lifecycle) {
    var asked := Asked(g, id);
    var idle := DoAll(asked, w, id, IfHeld(held), a);
    match a.status
    case NoRecord => (idle, current)
    case Unreachable => (idle, SubmissionUnknown)
    case Found(r) =>
      if r.orderStatus == Some(Canceled) || r.orderStatus == Some(Rejected) || r.orderStatus == Some(Expired)
      then (Terminated(asked, w, id, r, held, a), DefinitiveReject)
      else if r.submitStatus == Some(AcknowledgedStatus) then (Worked(asked, w, id, r, held, a), Acknowledged)
      else (idle, SubmissionUnknown)
  }

  /** The lease and the money apart, a settlement leaves what is remembered alone. */
  lemma {:induction false} SettledKeepsStates(g: Shared, w: Worker, id: Id, what: Settlement, held: bool, a: Answer)
    ensures var g' := DoAll(Settled(g, w, id, what, a), w, id, IfHeld(held), a); g'.seen == g.seen && g'.ledger == g.ledger
    ensures Settled(g, w, id, what, a).seen == g.seen && Settled(g, w, id, what, a).ledger == g.ledger
  {
    var g1 := Settled(g, w, id, what, a);
    DoAllKeepsStates(g, w, id, MoneyActions(what, BoundTo(g, id)), a);
    DoAllKeepsStates(g1, w, id, IfHeld(held), a);
  }

  lemma {:induction false} TerminatedTells(g: Shared, w: Worker, id: Id, r: OrderResult, held: bool, a: Answer)
    requires Dead(r)
    ensures var g' := Terminated(g, w, id, r, held, a);
            Told(g, id, Found(r), NotSeen, g', DefinitiveReject) && OthersStay(id, g.seen, g.ledger, g'.seen, g'.ledger)
  {
    DoTwo(g, w, id, Mark(DefinitiveReject), Resolve(r), a);
    var g1 := Do(g, w, id, Mark(DefinitiveReject), a);
    SettledKeepsStates(Do(g1, w, id, Resolve(r), a), w, id, Freeing(ReleaseReason(r)), held, a);
    if id in g.ledger { ResolvingReports(g1, w, id, r, a); }
  }

  lemma {:induction false} WorkedTells(g: Shared, w: Worker, id: Id, r: OrderResult, held: bool, a: Answer)
    requires !Dead(r) && r.submitStatus == Some(AcknowledgedStatus)
    ensures var g' := Worked(g, w, id, r, held, a);
            Told(g, id, Found(r), NotSeen, g', Acknowledged) && OthersStay(id, g.seen, g.ledger, g'.seen, g'.ledger)
  {
    var g1 := Do(g, w, id, Mark(Acknowledged), a);
    var cash := if r.average.Some? then CashNeededFor(r.filled, r.average.value) else 0;
    var g2 := if r.filled > 0 && r.average.Some? && r.average.value > 0 then FillCounted(g1, w, id, r.filled, cash, a) else g1;
    CountingKeepsStates(g1, w, id, r.filled, cash, a);
    KeptAfter(g2, w, id, [Resolve(r)], IfHeld(held), a);
    DoAllNext(g2, w, id, [], Resolve(r), a);
    assert [] + [Resolve(r)] == [Resolve(r)];
    if id in g2.ledger { ResolvingReports(g2, w, id, r, a); }
  }

  lemma {:induction false} CountingKeepsStates(g: Shared, w: Worker, id: Id, shares: int, cash: int, a: Answer)
    ensures var g' := FillCounted(g, w, id, shares, cash, a);
            && g'.seen == g.seen && OthersStay(id, g.seen, g.ledger, g'.seen, g'.ledger)
            && (id in g.ledger <==> id in g'.ledger)
            && (id in g.ledger ==> g'.ledger[id] == g.ledger[id].(fillShares := g'.ledger[id].fillShares, fillCash := g'.ledger[id].fillCash))
  {
    var g1 := Do(g, w, id, Seed(shares, cash), a);
    var delta := if id in g.ledger then Counted(g.ledger[id], shares, cash).1 else 0;
    SettledKeepsStates(g1, w, id, Spending(delta), false, a);
  }

  lemma {:induction false} PolledTells(g: Shared, w: Worker, id: Id, held: bool, current: Lifecycle, a: Answer)
    ensures var (g', out) := Polled(g, w, id, held, current, a);
            Told(g, id, a.status, current, g', out) && OthersStay(id, g.seen, g.ledger, g'.seen, g'.ledger)
  {
    var asked := Asked(g, id);
    if a.status.Found? && Dead(a.status.result) {
      TerminatedTells(asked, w, id, a.status.result, held, a);
    } else if a.status.Found? && a.status.result.submitStatus == Some(AcknowledgedStatus) {
      WorkedTells(asked, w, id, a.status.result, held, a);
    } else {
      DoAllKeepsStates(asked, w, id, IfHeld(held), a);
    }
  }

  lemma {:induction false} GetsPolled(g: Shared, id: Id, w: Worker, held: bool, current: Lifecycle, a: Answer)
    ensures var (g', out) := Polled(g, w, id, held, current, a);
            Gets(g, Task(ReconcileJob(id), w, Query(held, current)), a, g', Task(ReconcileJob(id), w, Done(State(out))))
  {
    var job := ReconcileJob(id);
    var t := Task(job, w, Query(held, current));
    var t1 := t.(pc := AfterStatus(held, current, a.status));
    var (g', out) := Polled(g, w, id, held, current, a);
    var asked := Asked(g, id);
    GetsHere(g, t, a);
    GetsNext(g, t, a, g, t);
    if a.status.Found?
       && (a.status.result.orderStatus == Some(Canceled) || a.status.result.orderStatus == Some(Rejected)
           || a.status.result.orderStatus == Some(Expired)) {
      GetsTerminated(asked, job, w, a.status.result, held, State(DefinitiveReject), a);
    } else if a.status.Found? && a.status.result.submitStatus == Some(AcknowledgedStatus) {
      GetsWorked(asked, id, w, a.status.result, held, a);
    } else {
      GetsDone(asked, job, w, IfHeld(held), Done(State(out)), a);
    }
    GetsTrans(g, t, a, asked, t1, g', t.(pc := Done(State(out))));
  }

  lemma {:induction false} GetsNeed(g: Shared, id: Id, w: Worker, a: Answer)
    ensures var held := CanLease(g, w, a.dbNow); var g1 := if held then Leased(g, w, a.dbNow) else g;
            Gets(g, Task(ReconcileJob(id), w, Acquire), a,
                 g1, Task(ReconcileJob(id), w, FirstNeed(held, if id in g.seen then g.seen[id] else NotSeen)))
  {
    var held := CanLease(g, w, a.dbNow);
    var g1 := if held then Leased(g, w, a.dbNow) else g;
    var t := Task(ReconcileJob(id), w, Acquire);
    GetsHere(g, t, a);
    GetsNext(g, t, a, g, t);
    GetsNext(g, t, a, g1, t.(pc := ReadSeen(held)));
  }

  lemma {:induction false} GetsIdle(g: Shared, id: Id, w: Worker, held: bool, current: Lifecycle, a: Answer)
    requires !NeedsReconcile(g, id)
    ensures Gets(g, Task(ReconcileJob(id), w, FirstNeed(held, current)), a,
                 DoAll(g, w, id, IfHeld(held), a), Task(ReconcileJob(id), w, Done(State(current))))
  {
    var t := Task(ReconcileJob(id), w, FirstNeed(held, current));
    var end := t.(pc := Doing(IfHeld(held), Done(State(current))));
    GetsHere(g, t, a);
    GetsNext(g, t, a, g, t);
    if current.SubmissionUnknown? { GetsNext(g, t, a, g, t.(pc := SecondNeed(held, current))); }
    GetsDone(g, t.job, w, IfHeld(held), Done(State(current)), a);
    GetsTrans(g, t, a, g, end, DoAll(g, w, id, IfHeld(held), a), t.(pc := Done(State(current))));
  }

  /** Up to the query, or to its being unnecessary. */
  lemma {:induction false} GetsQuery(g: Shared, id: Id, w: Worker, a: Answer)
    ensures var held := CanLease(g, w, a.dbNow); var g1 := if held then Leased(g, w, a.dbNow) else g;
            var current := if id in g.seen then g.seen[id] else NotSeen; var job := ReconcileJob(id);
            if NeedsReconcile(g, id)
            then Gets(g, Task(job, w, Acquire), a, g1, Task(job, w, Query(held, current)))
            else Gets(g, Task(job, w, Acquire), a, DoAll(g1, w, id, IfHeld(held), a), Task(job, w, Done(State(current))))
  {
    var held := CanLease(g, w, a.dbNow);
    var g1 := if held then Leased(g, w, a.dbNow) else g;
    var current := if id in g.seen then g.seen[id] else NotSeen;
    var t := Task(ReconcileJob(id), w, Acquire);
    GetsNeed(g, id, w, a);
    if NeedsReconcile(g, id) {
      GetsNext(g, t, a, g1, t.(pc := FirstNeed(held, current)));
    } else {
      GetsIdle(g1, id, w, held, current, a);
      GetsTrans(g, t, a, g1, t.(pc := FirstNeed(held, current)), DoAll(g1, w, id, IfHeld(held), a), t.(pc := Done(State(current))));
    }
  }

  /** The cancel request is out. */
  function Cancelling(g: Shared, id: Id): Shared { g.(cancels := g.cancels + [id]) }

  function CancelSettled(g: Shared, w: Worker, id: Id, a: Answer): Shared {
    DoAll(Settled(Do(g, w, id, Resolve(CANCELED_RESULT), a), w, id, Freeing(Money.CancelledReason), a),
          w, id, IfHeld(true), a)
  }

  lemma {:induction false} GetsCancelSettled(g: Shared, id: Id, w: Worker, a: Answer)
    requires a.cancelled
    ensures Gets(g, Task(CancelJob(id), w, SendCancel), a,
                 CancelSettled(Cancelling(g, id), w, id, a), Task(CancelJob(id), w, Done(CancelConfirmed)))
  {
    var job := CancelJob(id);
    var last := Doing([Unlease], Done(CancelConfirmed));
    var settle := FindPermit(Freeing(Money.CancelledReason), last);
    var t := Task(job, w, SendCancel);
    var g0 := Cancelling(g, id);
    GetsHere(g, t, a);
    GetsNext(g, t, a, g, t);
    var g1 := Do(g0, w, id, Resolve(CANCELED_RESULT), a);
    GetsDone(g0, job, w, [Resolve(CANCELED_RESULT)], settle, a);
    DoAllNext(g0, w, id, [], Resolve(CANCELED_RESULT), a);
    assert [] + [Resolve(CANCELED_RESULT)] == [Resolve(CANCELED_RESULT)];
    GetsTrans(g, t, a, g0, t.(pc := Doing([Resolve(CANCELED_RESULT)], settle)), g1, t.(pc := settle));
    var g2 := Settled(g1, w, id, Freeing(Money.CancelledReason), a);
    GetsSettled(g1, job, w, Freeing(Money.CancelledReason), last, a);
    GetsTrans(g, t, a, g1, t.(pc := settle), g2, t.(pc := last));
    GetsDone(g2, job, w, [Unlease], Done(CancelConfirmed), a);
    GetsTrans(g, t, a, g2, t.(pc := last), CancelSettled(g0, w, id, a), t.(pc := Done(CancelConfirmed)));
  }

  function CancelledFrom(g: Shared, w: Worker, id: Id, a: Answer): (Shared, Outcome) {
    if !MayCancel(a.mode) then (DoAll(g, w, id, IfHeld(true), a), CancelRefused(ModeForbids))
    else if NeedsReconcile(g, id) then (g, CancelThrew)
    else if !a.cancelled then (DoAll(Cancelling(g, id), w, id, IfHeld(true), a), CancelFailed)
    else (CancelSettled(Cancelling(g, id), w, id, a), CancelConfirmed)
  }

  lemma {:induction false} GetsSent(g: Shared, id: Id, w: Worker, a: Answer)
    requires MayCancel(a.mode) && !NeedsReconcile(g, id)
    ensures Gets(g, Task(CancelJob(id), w, Gate), a, g, Task(CancelJob(id), w, SendCancel))
  {
    var t := Task(CancelJob(id), w, Gate);
    GetsHere(g, t, a);
    GetsNext(g, t, a, g, t);
    GetsNext(g, t, a, g, t.(pc := RecordCancel));
  }

  lemma {:induction false} GetsStopped(g: Shared, id: Id, w: Worker, a: Answer)
    requires !MayCancel(a.mode) || NeedsReconcile(g, id)
    ensures var (g', out) := CancelledFrom(g, w, id, a);
            Gets(g, Task(CancelJob(id), w, Gate), a, g', Task(CancelJob(id), w, Done(out)))
  {
    var t := Task(CancelJob(id), w, Gate);
    var (g', out) := CancelledFrom(g, w, id, a);
    GetsHere(g, t, a);
    GetsNext(g, t, a, g, t);
    if MayCancel(a.mode) {
      GetsNext(g, t, a, g, t.(pc := RecordCancel));
    } else {
      GetsDone(g, t.job, w, [Unlease], Done(out), a);
      GetsTrans(g, t, a, g, t.(pc := Doing([Unlease], Done(out))), g', t.(pc := Done(out)));
    }
  }

  lemma {:induction false} GetsCancelledFrom(g: Shared, id: Id, w: Worker, a: Answer)
    ensures var (g', out) := CancelledFrom(g, w, id, a);
            Gets(g, Task(CancelJob(id), w, Gate), a, g', Task(CancelJob(id), w, Done(out)))
  {
    var t, g1 := Task(CancelJob(id), w, Gate), Cancelling(g, id);
    var (g', out) := CancelledFrom(g, w, id, a);
    if !MayCancel(a.mode) || NeedsReconcile(g, id) {
      GetsStopped(g, id, w, a);
    } else {
      GetsSent(g, id, w, a);
      if a.cancelled {
        GetsCancelSettled(g, id, w, a);
        GetsTrans(g, t, a, g, t.(pc := SendCancel), g', t.(pc := Done(out)));
      } else {
        GetsNext(g, t, a, g, t.(pc := SendCancel));
        GetsDone(g1, t.job, w, [Unlease], Done(out), a);
        GetsTrans(g, t, a, g1, t.(pc := Doing([Unlease], Done(out))), g', t.(pc := Done(out)));
      }
    }
  }

  lemma {:induction false} GetsCancelled(g: Shared, id: Id, w: Worker, a: Answer)
    ensures var t := Task(CancelJob(id), w, Acquire);
            if CanLease(g, w, a.dbNow) then
              var (g', out) := CancelledFrom(Leased(g, w, a.dbNow), w, id, a);
              Gets(g, t, a, g', t.(pc := Done(out)))
            else Gets(g, t, a, g, t.(pc := Done(CancelRefused(LeaseNotAcquired))))
  {
    var t := Task(CancelJob(id), w, Acquire);
    GetsHere(g, t, a);
    GetsNext(g, t, a, g, t);
    if CanLease(g, w, a.dbNow) {
      var g1 := Leased(g, w, a.dbNow);
      var (g', out) := CancelledFrom(g1, w, id, a);
      GetsCancelledFrom(g1, id, w, a);
      GetsTrans(g, t, a, g1, t.(pc := Gate), g', t.(pc := Done(out)));
    }
  }

  lemma {:induction false} GetsRefused(g: Shared, job: Job, w: Worker, pc: Pc, g1: Shared, v: Verdict, a: Answer)
    requires v.TurnedAway? && Gets(g, Task(job, w, pc), a, g1, Task(job, w, Refuse(v.outcome, v.early)))
    ensures Gets(g, Task(job, w, pc), a,
                 DoAll(g1, w, JobOrder(job), if v.early then [Unlease, Unlease] else [Unlease], a),
                 Task(job, w, Done(v.outcome)))
  {
    var todo := if v.early then [Unlease, Unlease] else [Unlease];
    GetsDone(g1, job, w, todo, Done(v.outcome), a);
    GetsTrans(g, Task(job, w, pc), a, g1, Task(job, w, Refuse(v.outcome, v.early)),
              DoAll(g1, w, JobOrder(job), todo, a), Task(job, w, Done(v.outcome)));
  }

  lemma {:induction false} GetsAnswered(g: Shared, o: Order, p: Permit, w: Worker, pc: Pc, g1: Shared, a: Answer)
    requires Gets(g, Task(SubmitJob(o, p), w, pc), a, g1, Task(SubmitJob(o, p), w, Await))
    ensures var after := AfterAnswer(o, p, a.placed);
            && after.Doing?
            && Gets(g, Task(SubmitJob(o, p), w, pc), a,
                    DoAll(g1, w, o.id, after.todo, a), Task(SubmitJob(o, p), w, after.next))
  {
    var job, after := SubmitJob(o, p), AfterAnswer(o, p, a.placed);
    GetsNext(g, Task(job, w, pc), a, g1, Task(job, w, Await));
    GetsDone(g1, job, w, after.todo, after.next, a);
    GetsTrans(g, Task(job, w, pc), a, g1, Task(job, w, after), DoAll(g1, w, o.id, after.todo, a), Task(job, w, after.next));
  }

  /** Actions on money, counters and lease leave the seen log alone, and of the ledger all but the counters of their own row. */
  lemma {:induction false} DoAllKeepsStates(g: Shared, w: Worker, id: Id, todo: seq<Action>, a: Answer)
    requires forall i :: 0 <= i < |todo| ==> todo[i].Free? || todo[i].Spend? || todo[i].Seed? || todo[i].Unlease?
    ensures var g' := DoAll(g, w, id, todo, a);
            && g'.seen == g.seen && OthersStay(id, g.seen, g.ledger, g'.seen, g'.ledger)
            && (id in g.ledger <==> id in g'.ledger)
            && (id in g.ledger ==> g'.ledger[id] == g.ledger[id].(fillShares := g'.ledger[id].fillShares, fillCash := g'.ledger[id].fillCash))
            && ((forall i :: 0 <= i < |todo| ==> !todo[i].Seed?) ==> g'.ledger == g.ledger)
    decreases |todo|
  {
    if todo != [] { DoAllKeepsStates(Do(g, w, id, todo[0], a), w, id, todo[1..], a); }
  }

  /** Settling never touches permits or the orders on record, and of the lease can only end it. */
  lemma {:induction false} DoAllKeepsRest(g: Shared, w: Worker, id: Id, todo: seq<Action>, a: Answer)
    ensures var g' := DoAll(g, w, id, todo, a);
            g'.permits == g.permits && g'.orders == g.orders && (g'.lease == g.lease || g'.lease == None)
    decreases |todo|
  {
    if todo != [] { DoAllKeepsRest(Do(g, w, id, todo[0], a), w, id, todo[1..], a); }
  }

  lemma {:induction false} AnswerUnleases(g: Shared, w: Worker, o: Order, p: Permit, a: Answer)
    ensures var g' := DoAll(g, w, o.id, AfterAnswer(o, p, a.placed).todo, a);
            g'.permits == g.permits && (g.lease == None || g.lease.value.holder == w.holder ==> g'.lease == None)
  {
    var todo := AfterAnswer(o, p, a.placed).todo;
    var n := |todo| - 1;
    assert todo[n] == Unlease;
    assert todo == todo[..n] + [Unlease];
    DoAllKeepsRest(g, w, o.id, todo[..n], a);
    DoAllNext(g, w, o.id, todo[..n], Unlease, a);
  }

  ghost predicate Kept(g: Shared, g': Shared, id: Id, placed: PlaceAnswer) {
    && OthersStay(id, g.seen, g.ledger, g'.seen, g'.ledger)
    && (id in g.ledger && id in g.seen ==>
          && id in g'.ledger && id in g'.seen && AnswerLeaves(placed, g.seen[id], g.ledger[id], g'.seen[id], g'.ledger[id]))
  }

  /** In any state of the tables, what the answer leaves in seen log and ledger. */
  lemma {:induction false} AnswerIsKept(g: Shared, w: Worker, o: Order, p: Permit, a: Answer)
    ensures Kept(g, DoAll(g, w, o.id, AfterAnswer(o, p, a.placed).todo, a), o.id, a.placed)
  {
    match a.placed
    case NotSent(_) => UnsentIsKept(g, w, o, p, a);
    case OutcomeUnknown => UnknownIsKept(g, w, o, p, a);
    case Refusal => RefusalIsKept(g, w, o, p, a);
    case Acked(_) => AckIsKept(g, w, o, p, a);
  }

  lemma {:induction false} UnknownIsKept(g: Shared, w: Worker, o: Order, p: Permit, a: Answer)
    requires a.placed.OutcomeUnknown?
    ensures Kept(g, DoAll(g, w, o.id, AfterAnswer(o, p, a.placed).todo, a), o.id, a.placed)
  {
    var start := [Mark(SubmissionUnknown), Update(SubmissionUnknown)];
    DoTwo(g, w, o.id, start[0], start[1], a);
    KeptAfter(g, w, o.id, start, [Unlease, Unlease], a);
    assert start + [Unlease, Unlease] == AfterAnswer(o, p, a.placed).todo;
  }

  lemma {:induction false} RefusalIsKept(g: Shared, w: Worker, o: Order, p: Permit, a: Answer)
    requires a.placed.Refusal?
    ensures Kept(g, DoAll(g, w, o.id, AfterAnswer(o, p, a.placed).todo, a), o.id, a.placed)
  {
    var free := Releases(p.reservationIds, Money.RejectedReason);
    DoTwo(g, w, o.id, Update(DefinitiveReject), Unlease, a);
    KeptAfter(g, w, o.id, [Update(DefinitiveReject), Unlease], free + [Unlease], a);
    assert [Update(DefinitiveReject), Unlease] + (free + [Unlease]) == AfterAnswer(o, p, a.placed).todo;
  }

  lemma {:induction false} AnswerEndsSo(o: Order, p: Permit, placed: PlaceAnswer)
    ensures var pc := AfterAnswer(o, p, placed); pc.Doing? && pc.next.Done? && AnswerEnds(placed, pc.next.outcome)
  {}

  /** What follows the first actions of a settlement does not concern what is remembered. */
  lemma {:induction false} KeptAfter(g: Shared, w: Worker, id: Id, start: seq<Action>, rest: seq<Action>, a: Answer)
    requires forall i :: 0 <= i < |rest| ==> rest[i].Free? || rest[i].Spend? || rest[i].Seed? || rest[i].Unlease?
    ensures var g1, g' := DoAll(g, w, id, start, a), DoAll(g, w, id, start + rest, a);
            && g'.seen == g1.seen && OthersStay(id, g1.seen, g1.ledger, g'.seen, g'.ledger)
            && (id in g1.ledger <==> id in g'.ledger)
            && (id in g1.ledger ==>
                  g'.ledger[id] == g1.ledger[id].(fillShares := g'.ledger[id].fillShares, fillCash := g'.ledger[id].fillCash))
            && ((forall i :: 0 <= i < |rest| ==> !rest[i].Seed?) ==> g'.ledger == g1.ledger)
  {
    DoAllAdds(g, w, id, start, rest, a);
    DoAllKeepsStates(DoAll(g, w, id, start, a), w, id, rest, a);
  }

  lemma {:induction false} UnsentIsKept(g: Shared, w: Worker, o: Order, p: Permit, a: Answer)
    requires a.placed.NotSent?
    ensures Kept(g, DoAll(g, w, o.id, AfterAnswer(o, p, a.placed).todo, a), o.id, a.placed)
  {
    var todo := AfterAnswer(o, p, a.placed).todo;
    if NeverLeft(a.placed) {
      var start := [Mark(DefinitiveReject), Update(DefinitiveReject), Resolve(REJECTED_RESULT)];
      var free := Releases(p.reservationIds, Money.RejectedReason);
      DoThree(g, w, o.id, start[0], start[1], start[2], a);
      KeptAfter(g, w, o.id, start, free + [Unlease, Unlease], a);
      assert start + (free + [Unlease, Unlease]) == todo;
    } else {
      assert todo == [Unlease, Unlease];
      DoAllKeepsStates(g, w, o.id, todo, a);
    }
  }

  /** An acknowledgement: the state it tells, in ledger and seen log, then the report. */
  lemma {:induction false} AckStarts(g: Shared, w: Worker, id: Id, r: OrderResult, a: Answer)
    ensures var g1 := DoAll(g, w, id, [Update(AckState(r)), Mark(AckState(r)), Unlease, Resolve(r)], a);
            && g1.seen == g.seen[id := AckState(r)] && OthersStay(id, g.seen, g.ledger, g1.seen, g1.ledger)
            && (id in g.ledger ==> id in g1.ledger && ReportLeaves(g.ledger[id].(state := AckState(r)), r, g1.ledger[id]))
  {
    var start := [Update(AckState(r)), Mark(AckState(r)), Unlease];
    DoThree(g, w, id, start[0], start[1], start[2], a);
    DoAllNext(g, w, id, start, Resolve(r), a);
    assert start + [Resolve(r)] == [Update(AckState(r)), Mark(AckState(r)), Unlease, Resolve(r)];
    if id in g.ledger { ResolvingReports(DoAll(g, w, id, start, a), w, id, r, a); }
  }

  lemma {:induction false} AckTells(r: OrderResult)
    ensures Tells(r.submitStatus, AckState(r))
  {}

  lemma {:induction false} AckIsKept(g: Shared, w: Worker, o: Order, p: Permit, a: Answer)
    requires a.placed.Acked?
    ensures Kept(g, DoAll(g, w, o.id, AfterAnswer(o, p, a.placed).todo, a), o.id, a.placed)
  {
    var r := a.placed.result;
    var start, fill := [Update(AckState(r)), Mark(AckState(r)), Unlease, Resolve(r)], FillActions(o, p, r);
    AckStarts(g, w, o.id, r, a);
    AckTells(r);
    KeptAfter(g, w, o.id, start, fill + [Unlease], a);
    assert start + (fill + [Unlease]) == AfterAnswer(o, p, a.placed).todo;
  }

  /** The ledger's part in a report, in the report's own terms. */
  lemma {:induction false} ResolvingReports(g: Shared, w: Worker, id: Id, r: OrderResult, a: Answer)
    requires id in g.ledger
    ensures var g' := Do(g, w, id, Resolve(r), a); id in g'.ledger && ReportLeaves(g.ledger[id], r, g'.ledger[id])
  {}

  lemma {:induction false} DoTwo(g: Shared, w: Worker, id: Id, x: Action, y: Action, a: Answer)
    ensures DoAll(g, w, id, [x, y], a) == Do(Do(g, w, id, x, a), w, id, y, a)
  {
    assert [x, y] == [x] + [y];
    assert DoAll(g, w, id, [], a) == g;
    DoAllNext(g, w, id, [], x, a);
    assert [] + [x] == [x];
    DoAllNext(g, w, id, [x], y, a);
  }

  lemma {:induction false} DoThree(g: Shared, w: Worker, id: Id, x: Action, y: Action, z: Action, a: Answer)
    ensures DoAll(g, w, id, [x, y, z], a) == Do(Do(Do(g, w, id, x, a), w, id, y, a), w, id, z, a)
  {
    assert [x, y, z] == [x, y] + [z];
    DoTwo(g, w, id, x, y, a);
    DoAllNext(g, w, id, [x, y], z, a);
  }

  /** The state once the request has gone out. */
  function Sent(g: Shared, w: Worker, o: Order, p: Permit): Shared {
    g.(seen := g.seen[o.id := Submitting], ledger := Recorded(g.ledger, o.id, p.id), calls := g.calls + [Call(o, p, w)])
  }

  lemma {:induction false} SendGets(g: Shared, w: Worker, o: Order, p: Permit, a: Answer)
    ensures Gets(g, Task(SubmitJob(o, p), w, MarkSubmitting), a, Sent(g, w, o, p), Task(SubmitJob(o, p), w, Await))
  {
    var t := Task(SubmitJob(o, p), w, MarkSubmitting);
    assert Solo(g, t, a, 1) == (g.(seen := g.seen[o.id := Submitting]), t.(pc := RecordSubmitting));
    assert Solo(g, t, a, 2).1 == t.(pc := Place);
    assert Solo(g, t, a, 3) == (Sent(g, w, o, p), t.(pc := Await));
  }

  /**
   No blind retry: while the seen log holds an order in any state but a definitive reject, a submit of
   it ends as a duplicate, whatever the permit and the outside answer, and touches nothing but the lease.
   */
  lemma {:induction false} SeenOrderIsDuplicate(g: Shared, w: Worker, o: Order, p: Permit, a: Answer)
    requires CanLease(g, w, a.dbNow) && o.id in g.seen && !g.seen[o.id].DefinitiveReject?
    ensures Gets(g, Task(SubmitJob(o, p), w, Acquire), a, g.(lease := None), Task(SubmitJob(o, p), w, Done(Duplicate)))
  {
    var t := Task(SubmitJob(o, p), w, Acquire);
    var g1 := Leased(g, w, a.dbNow);
    var refused := t.(pc := Refuse(Duplicate, true));
    GetsHere(g, t, a);
    GetsNext(g, t, a, g, t);
    GetsNext(g, t, a, g1, t.(pc := Dedupe));
    GetsDone(g1, t.job, w, [Unlease, Unlease], Done(Duplicate), a);
    DoTwo(g1, w, o.id, Unlease, Unlease, a);
    GetsTrans(g, t, a, g1, refused, g.(lease := None), t.(pc := Done(Duplicate)));
  }

  /** What the object does in one call is a run of any world in which its task is scheduled alone. */
  lemma {:induction false} CallsAreRuns(w: World, i: nat, a: Answer, g': Shared, t': Task)
    requires i < |w.tasks| && Gets(w.g, w.tasks[i], a, g', t')
    ensures ExecutorSafety.Reaches(w, World(g', w.tasks[i := t']))
  {
    var n: nat :| Solo(w.g, w.tasks[i], a, n) == (g', t');
    ExecutorSafety.SoloReaches(w, i, a, n);
  }
}
