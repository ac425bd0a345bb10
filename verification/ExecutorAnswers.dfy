/**
 What each answer to a request comes to over runs: reservations are given back only on proof that nothing left or on a
 refusal by the venue, and a submit that cannot tell ends to be reconciled, with its money where it was.
 */
module ExecutorAnswers {
  import opened Wrappers
  import opened ExecutorSteps
  import opened Executor
  import opened ExecutorSafety
  import Money

  // ----- the shape of a submit -----

  predicate GivesBack(todo: seq<Action>) { exists i :: 0 <= i < |todo| && todo[i].Free? }

  predicate Quiet(todo: seq<Action>) { forall i :: 0 <= i < |todo| ==> todo[i].Unlease? || todo[i].Mark? || todo[i].Update? }

  /** The outcome a submit is bound for, once it is settled. */
  function BoundFor(pc: Pc): Option<Outcome> {
    match pc
    case Done(out) => Some(out)
    case Doing(_, Done(out)) => Some(out)
    case _ => None
  }

  predicate Released(out: Outcome) { out == PermitRefused(NothingSent) || out == PermitRefused(RefusedByVenue) }

  /** A submit is before its answer, or bound for an outcome; only two outcomes give anything back. */
  predicate Shaped(pc: Pc) {
    || BeforeAnswer(pc)
    || (BoundFor(pc).Some? && (pc.Doing? ==> GivesBack(pc.todo) ==> Released(BoundFor(pc).value)))
  }

  lemma {:induction false} RefusalIsShaped(outcome: Outcome, early: bool)
    ensures BoundFor(Refuse(outcome, early)) == Some(outcome) && Shaped(Refuse(outcome, early))
  {}

  /** Before the answer a submit is bound for no outcome that only an answer brings. */
  lemma {:induction false} EarlyStep(g: Shared, w: Worker, o: Order, p: Permit, pc: Pc, a: Answer)
    requires BeforeAnswer(pc) && !pc.Await?
    ensures var pc' := StepSubmit(g, w, o, p, pc, a).1;
            Shaped(pc') && (BoundFor(pc').Some? ==> !Contacted(BoundFor(pc').value))
  {
    forall outcome, early ensures BoundFor(Refuse(outcome, early)) == Some(outcome) && Shaped(Refuse(outcome, early)) {
      RefusalIsShaped(outcome, early);
    }
  }

  lemma {:induction false} AnswerStep(o: Order, p: Permit, placed: PlaceAnswer)
    ensures var pc := AfterAnswer(o, p, placed);
            BoundFor(pc).Some? && AnswerEnds(placed, BoundFor(pc).value) && Shaped(pc)
  {
    AnswerEndsSo(o, p, placed);
    var pc := AfterAnswer(o, p, placed);
    if placed.Acked? { FillGivesNothingBack(o, p, placed.result); }
    assert placed.OutcomeUnknown? || (placed.NotSent? && !NeverLeft(placed)) ==> !GivesBack(pc.todo);
  }

  lemma {:induction false} FillGivesNothingBack(o: Order, p: Permit, r: OrderResult)
    ensures !GivesBack(FillActions(o, p, r))
  {}

  lemma {:induction false} LateStep(g: Shared, w: Worker, id: Id, pc: Pc, a: Answer)
    requires BoundFor(pc).Some? && Shaped(pc)
    ensures var pc' := StepSettle(g, w, id, pc, a).1; BoundFor(pc') == BoundFor(pc) && Shaped(pc')
  {
    var pc' := StepSettle(g, w, id, pc, a).1;
    if pc'.Doing? && GivesBack(pc'.todo) {
      var i :| 0 <= i < |pc'.todo| && pc'.todo[i].Free?;
      assert pc.todo[i + 1].Free?;
    }
  }

  // ----- over runs -----

  /** Event `k` is the answer to the request of submit `i`, and calls for `out`. */
  ghost predicate HeardAt(events: seq<Event>, i: nat, k: nat, out: Outcome) {
    && k < |events| && events[k].Advance? && events[k].task == i
    && var w := Run(BEGIN, events[..k]);
    && i < |w.tasks| && w.tasks[i].job.SubmitJob? && w.tasks[i].pc.Await? && AnswerEnds(events[k].answer.placed, out)
  }

  ghost predicate Heard(events: seq<Event>, i: nat, out: Outcome) { exists k: nat :: HeardAt(events, i, k, out) }

  ghost predicate Accounted(events: seq<Event>, i: nat, t: Task) {
    t.job.SubmitJob? ==>
      Shaped(t.pc) && (BoundFor(t.pc).Some? && Contacted(BoundFor(t.pc).value) ==> Heard(events, i, BoundFor(t.pc).value))
  }

  lemma {:induction false} HeardStays(events: seq<Event>, e: Event, i: nat, out: Outcome)
    requires Heard(events, i, out)
    ensures Heard(events + [e], i, out)
  {
    var k: nat :| HeardAt(events, i, k, out);
    assert (events + [e])[..k] == events[..k];
    assert HeardAt(events + [e], i, k, out);
  }

  lemma {:induction false} AccountedStays(events: seq<Event>, e: Event, i: nat, t: Task)
    requires Accounted(events, i, t)
    ensures Accounted(events + [e], i, t)
  {
    if t.job.SubmitJob? && BoundFor(t.pc).Some? && Contacted(BoundFor(t.pc).value) {
      HeardStays(events, e, i, BoundFor(t.pc).value);
    }
  }

  lemma {:induction false} AdvanceAccounted(events: seq<Event>, i: nat, a: Answer)
    requires var w := Run(BEGIN, events); i < |w.tasks| && Accounted(events, i, w.tasks[i])
    ensures var w := Run(BEGIN, events); Accounted(events + [Advance(i, a)], i, Step(w.g, w.tasks[i], a).1)
  {
    var w, e := Run(BEGIN, events), Advance(i, a);
    var t := w.tasks[i];
    var t' := Step(w.g, t, a).1;
    if t.job.SubmitJob? {
      var o, p := t.job.order, t.job.permit;
      if t.pc.Await? {
        AnswerStep(o, p, a.placed);
        assert (events + [e])[..|events|] == events;
        assert HeardAt(events + [e], i, |events|, BoundFor(t'.pc).value);
      } else if BeforeAnswer(t.pc) {
        EarlyStep(w.g, t.worker, o, p, t.pc, a);
      } else {
        LateStep(w.g, t.worker, o.id, t.pc, a);
        if Contacted(BoundFor(t.pc).value) { HeardStays(events, e, i, BoundFor(t.pc).value); }
      }
    }
  }

  lemma {:induction false} RunNext(events: seq<Event>, e: Event)
    ensures Run(BEGIN, events + [e]) == Apply(Run(BEGIN, events), e)
  {
    RunAppend(BEGIN, events, [e]);
    assert [e][1..] == [];
    assert Run(Apply(Run(BEGIN, events), e), []) == Apply(Run(BEGIN, events), e);
  }

  lemma {:induction false} RunAccounted(events: seq<Event>, i: nat)
    requires i < |Run(BEGIN, events).tasks|
    ensures Accounted(events, i, Run(BEGIN, events).tasks[i])
    decreases |events|
  {
    if events != [] {
      var before, e := events[..|events| - 1], events[|events| - 1];
      assert events == before + [e];
      RunNext(before, e);
      var w := Run(BEGIN, before);
      if i < |w.tasks| {
        RunAccounted(before, i);
        if e.Advance? && e.task == i { AdvanceAccounted(before, i, e.answer); } else { AccountedStays(before, e, i, w.tasks[i]); }
      }
    }
  }

  /**
   In every run, of whatever other tasks, crashes and restarts: a submit that is giving reservations back, or has ended
   in an outcome that only an answer brings, has had exactly the answer that calls for it. So it reports that nothing
   was sent, and gives back, if and only if its failure proved as much; and a failure that did not, or no answer that
   could be read, is to be reconciled.
   */
  lemma {:induction false} AnsweredSo(events: seq<Event>, i: nat)
    requires var w := Run(BEGIN, events); i < |w.tasks| && w.tasks[i].job.SubmitJob?
    ensures var pc := Run(BEGIN, events).tasks[i].pc;
            && (pc.Doing? && GivesBack(pc.todo) ==>
                  exists k: nat :: HeardAt(events, i, k, PermitRefused(NothingSent)) || HeardAt(events, i, k, PermitRefused(RefusedByVenue)))
            && (pc.Done? && Contacted(pc.outcome) ==> exists k: nat :: HeardAt(events, i, k, pc.outcome))
  {
    RunAccounted(events, i);
  }

  /** A submit bound for an outcome stays bound for it; one that is quiet stays quiet. */
  lemma {:induction false} BoundForGood(w: World, events: seq<Event>, i: nat)
    requires i < |w.tasks| && w.tasks[i].job.SubmitJob? && BoundFor(w.tasks[i].pc).Some?
    ensures var w' := Run(w, events);
            && i < |w'.tasks| && w'.tasks[i].job == w.tasks[i].job && w'.tasks[i].worker == w.tasks[i].worker
            && BoundFor(w'.tasks[i].pc) == BoundFor(w.tasks[i].pc)
            && (Hushed(w.tasks[i].pc) ==> Hushed(w'.tasks[i].pc))
    decreases |events|
  {
    if events != [] {
      if events[0].Advance? && events[0].task == i { BoundStep(w.g, w.tasks[i], events[0].answer); }
      BoundForGood(Apply(w, events[0]), events[1..], i);
    }
  }

  predicate Hushed(pc: Pc) { pc.Doing? ==> Quiet(pc.todo) }

  lemma {:induction false} BoundStep(g: Shared, t: Task, a: Answer)
    requires t.job.SubmitJob? && BoundFor(t.pc).Some?
    ensures var (g', t') := Step(g, t, a);
            && t'.job == t.job && t'.worker == t.worker && BoundFor(t'.pc) == BoundFor(t.pc)
            && (Hushed(t.pc) ==> Hushed(t'.pc) && g'.money == g.money)
  {}

  /**
   After an answer that leaves it open whether anything was sent, the submit is bound for a reconciliation and never moves
   money again, whatever else happens in between.
   */
  lemma {:induction false} OpenMovesNoMoney(w: World, i: nat, a: Answer, events: seq<Event>, b: Answer)
    requires i < |w.tasks| && w.tasks[i].job.SubmitJob? && w.tasks[i].pc.Await? && Open(a.placed)
    ensures var w' := Run(Apply(w, Advance(i, a)), events);
            && i < |w'.tasks| && BoundFor(w'.tasks[i].pc) == Some(NeedsReconciliation)
            && Step(w'.g, w'.tasks[i], b).0.money == w'.g.money
  {
    var o, p := w.tasks[i].job.order, w.tasks[i].job.permit;
    var w1 := Apply(w, Advance(i, a));
    AnswerStep(o, p, a.placed);
    BoundForGood(w1, events, i);
    BoundStep(Run(w1, events).g, Run(w1, events).tasks[i], b);
  }

  /**
   The order is then in flight or unknown in the seen log, its row is as unresolved as it was, and the next submit of it,
   by whatever worker under whatever permit, is a duplicate that touches nothing but the lease.
   */
  lemma {:induction false} OpenThenDuplicate(g: Shared, w: Worker, o: Order, p: Permit, a: Answer, w2: Worker, o2: Order, q: Permit, b: Answer)
    requires o.id in g.seen && g.seen[o.id] == Submitting && o.id in g.ledger && g.ledger[o.id].state == Submitting
    requires Open(a.placed) && o2.id == o.id
    ensures var g' := DoAll(g, w, o.id, AfterAnswer(o, p, a.placed).todo, a);
            && g'.money == g.money
            && o.id in g'.ledger && g'.ledger[o.id] == g.ledger[o.id].(state := g'.ledger[o.id].state)
            && g'.ledger[o.id].state == (if a.placed.OutcomeUnknown? then SubmissionUnknown else Submitting)
            && o.id in g'.seen && g'.seen[o.id] == g'.ledger[o.id].state
            && (LeaseFree(g'.lease, w2, b.dbNow) ==>
                  Gets(g', Task(SubmitJob(o2, q), w2, Acquire), b,
                       g'.(lease := None), Task(SubmitJob(o2, q), w2, Done(Duplicate))))
  {
    var todo := AfterAnswer(o, p, a.placed).todo;
    var g' := DoAll(g, w, o.id, todo, a);
    AnswerIsKept(g, w, o, p, a);
    QuietKeepsMoney(g, w, o.id, todo, a);
    if LeaseFree(g'.lease, w2, b.dbNow) { SeenOrderIsDuplicate(g', w2, o2, q, b); }
  }

  lemma {:induction false} QuietKeepsMoney(g: Shared, w: Worker, id: Id, todo: seq<Action>, a: Answer)
    requires Quiet(todo)
    ensures DoAll(g, w, id, todo, a).money == g.money
    decreases |todo|
  {
    if todo != [] { QuietKeepsMoney(Do(g, w, id, todo[0], a), w, id, todo[1..], a); }
  }
}
