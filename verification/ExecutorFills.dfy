/**
 Fill accounting. The venue reports cumulative fills; the recovery ledger's counters turn them
 into what is still to be consumed. Over a submit acknowledgement and any sequence of polls,
 replays included, the cash consumed telescopes to the highest cumulative cash reported, plus
 whatever the reservation and the counters already disagreed by when the polls began.
 */
module ExecutorFills {
  import opened Wrappers
  import opened BigInt
  import opened ExecutorSteps
  import opened Executor
  import Money

  // ----- consuming from one reservation of several -----

  predicate Once(ids: seq<Id>, rid: Id) {
    exists k :: 0 <= k < |ids| && ids[k] == rid && rid !in ids[..k] && rid !in ids[k + 1..]
  }

  lemma {:induction false} SpendsTail(ids: seq<Id>, cash: int)
    requires ids != []
    ensures Spends(ids, cash)[0] == Spend(ids[0], cash) && Spends(ids, cash)[1..] == Spends(ids[1..], cash)
  {}

  /** A reservation that is not named keeps its row. */
  lemma {:induction false} SpendsElsewhere(g: Shared, w: Worker, id: Id, ids: seq<Id>, rid: Id, cash: int, a: Answer)
    requires rid !in ids && rid in g.money.rows
    ensures var rows := DoAll(g, w, id, Spends(ids, cash), a).money.rows;
            rid in rows && rows[rid] == g.money.rows[rid]
    decreases |ids|
  {
    if ids != [] {
      SpendsTail(ids, cash);
      SpendsElsewhere(Do(g, w, id, Spend(ids[0], cash), a), w, id, ids[1..], rid, cash, a);
    }
  }

  predicate CanConsume(r: Money.Reservation, cash: int, now: int) {
    cash > 0 && now <= r.expiresAt && r.Live() && r.consumed + cash <= r.amount
  }

  function AfterConsume(r: Money.Reservation, cash: int): Money.Reservation {
    r.(consumed := r.consumed + cash,
       status := if r.consumed + cash == r.amount then Money.Consumed else Money.PartiallyConsumed)
  }

  /** A reservation named once is asked once: it is consumed from if it can be, and otherwise left as it was. */
  lemma {:induction false} SpendsHere(g: Shared, w: Worker, id: Id, ids: seq<Id>, rid: Id, cash: int, a: Answer)
    requires Once(ids, rid) && rid in g.money.rows
    ensures var rows := DoAll(g, w, id, Spends(ids, cash), a).money.rows; var row := g.money.rows[rid];
            rid in rows && rows[rid] == if CanConsume(row, cash, a.bankNow) then AfterConsume(row, cash) else row
    decreases |ids|
  {
    SpendsTail(ids, cash);
    var k :| 0 <= k < |ids| && ids[k] == rid && rid !in ids[..k] && rid !in ids[k + 1..];
    var g1 := Do(g, w, id, Spend(ids[0], cash), a);
    if k == 0 {
      SpendsElsewhere(g1, w, id, ids[1..], rid, cash, a);
    } else {
      assert ids[..k][0] == ids[0];
      assert Once(ids[1..], rid) by {
        assert ids[1..][k - 1] == rid;
        assert ids[1..][..k - 1] == ids[..k][1..];
        assert ids[1..][k..] == ids[k + 1..];
      }
      SpendsHere(g1, w, id, ids[1..], rid, cash, a);
    }
  }

  // ----- releasing -----

  lemma {:induction false} ReleasesTail(ids: seq<Id>, reason: Money.Reason)
    requires ids != []
    ensures Releases(ids, reason)[0] == Free(ids[0], reason) && Releases(ids, reason)[1..] == Releases(ids[1..], reason)
  {}

  /** A release touches no consumed figure, whichever reservations it names. */
  lemma {:induction false} ReleasesKeepConsumed(g: Shared, w: Worker, id: Id, ids: seq<Id>, rid: Id, reason: Money.Reason, a: Answer)
    requires rid in g.money.rows
    ensures var rows := DoAll(g, w, id, Releases(ids, reason), a).money.rows;
            rid in rows && rows[rid].consumed == g.money.rows[rid].consumed && rows[rid].amount == g.money.rows[rid].amount
    decreases |ids|
  {
    if ids != [] {
      ReleasesTail(ids, reason);
      ReleasesKeepConsumed(Do(g, w, id, Free(ids[0], reason), a), w, id, ids[1..], rid, reason, a);
    }
  }

  // ----- what one poll reports -----

  predicate Working(r: OrderResult) { !Dead(r) && r.submitStatus == Some(AcknowledgedStatus) }

  /** The cumulative cash an answer accounts for; 0 when it accounts for none. */
  function CashReported(s: StatusAnswer): int {
    if s.Found? && Working(s.result) && s.result.filled > 0 && s.result.average.Some? && s.result.average.value > 0
    then CashNeededFor(s.result.filled, s.result.average.value) else 0
  }

  /** The answer after which the order is never queried again. */
  predicate Final(s: StatusAnswer) {
    && s.Found?
    && (Dead(s.result)
        || (Working(s.result) && s.result.orderStatus != Some(Live) && s.result.orderStatus != Some(Partial)))
  }

  /** The highest cumulative cash reported up to the final answer. */
  function Highest(polls: seq<Answer>): int {
    if polls == [] then 0
    else Max(CashReported(polls[0].status), if Final(polls[0].status) then 0 else Highest(polls[1..]))
  }

  /** A fill within the order's size and limit price. */
  predicate WithinTerms(r: OrderResult, size: int, price: int) {
    && r.filled <= size
    && (r.average.Some? ==> r.average.value <= price)
  }

  predicate FairPoll(a: Answer, size: int, price: int, expiresAt: int) {
    && a.bankNow <= expiresAt
    && (a.status.Found? ==> WithinTerms(a.status.result, size, price))
  }

  lemma {:induction false} FairCash(a: Answer, size: nat, price: nat, expiresAt: int)
    requires FairPoll(a, size, price, expiresAt)
    ensures 0 <= CashReported(a.status) <= CashNeededFor(size, price)
  {
    CashBounds(size, price);
    if CashReported(a.status) != 0 {
      var r := a.status.result;
      CashBounds(r.filled, r.average.value);
      CashMonotone(r.filled, r.average.value, size, price);
    }
  }

  lemma {:induction false} FairPolls(polls: seq<Answer>, size: nat, price: nat, expiresAt: int)
    requires forall i :: 0 <= i < |polls| ==> FairPoll(polls[i], size, price, expiresAt)
    ensures Timely(polls, expiresAt) && AtMost(polls, CashNeededFor(size, price))
  {
    forall i | 0 <= i < |polls| ensures 0 <= CashReported(polls[i].status) <= CashNeededFor(size, price) {
      FairCash(polls[i], size, price, expiresAt);
    }
  }

  // ----- what one poll does to counter and reservation -----

  /**
   Order `id` is tracked on reservation `rid`: its ledger row leads to a permit naming `rid` once, the
   row is unresolved, and the reservation is live, or used up.
   */
  predicate Tracked(g: Shared, id: Id, rid: Id) {
    && Bound(g, id, rid) && !g.ledger[id].resolved
    && var r := g.money.rows[rid];
    r.consumed <= r.amount && (r.Live() || r.consumed == r.amount)
  }

  predicate Bound(g: Shared, id: Id, rid: Id) {
    id in g.ledger && rid in g.money.rows && Once(BoundTo(g, id), rid) && g.ledger[id].fillCash >= 0
  }

  /** What a live, unexpired reservation has consumed after being asked for `rise`: an overdraft is refused whole. */
  function Took(consumed: int, amount: int, rise: int): int {
    if rise > 0 && consumed + rise <= amount then consumed + rise else consumed
  }

  /** `reconcile` as a function of the tables. */
  function Reconciled(g: Shared, w: Worker, id: Id, a: Answer): Shared {
    var held := CanLease(g, w, a.dbNow);
    var g1 := if held then Leased(g, w, a.dbNow) else g;
    if NeedsReconcile(g, id) then Polled(g1, w, id, held, NotSeen, a).0 else DoAll(g1, w, id, IfHeld(held), a)
  }

  /** The part of the tables accounting looks at. */
  predicate SameBooks(g: Shared, g': Shared) {
    g'.permits == g.permits && g'.ledger == g.ledger && g'.money == g.money
  }

  lemma {:induction false} IfHeldKeepsBooks(g: Shared, w: Worker, id: Id, held: bool, a: Answer)
    ensures SameBooks(g, DoAll(g, w, id, IfHeld(held), a))
  {
    if held {
      assert IfHeld(held)[1..] == [];
      assert DoAll(g, w, id, IfHeld(held), a) == DoAll(Do(g, w, id, Unlease, a), w, id, [], a);
    }
  }

  /** The counter hears `cash`, and the reservation is asked for exactly what the counter rose by. */
  ghost predicate Counts(g: Shared, g': Shared, id: Id, rid: Id, cash: int)
    requires id in g.ledger && rid in g.money.rows
  {
    && Bound(g', id, rid)
    && g'.ledger[id].fillCash == Max(g.ledger[id].fillCash, cash)
    && var r, r' := g.money.rows[rid], g'.money.rows[rid];
    && r'.consumed == Took(r.consumed, r.amount, g'.ledger[id].fillCash - g.ledger[id].fillCash)
    && r'.amount == r.amount
  }

  /** The counter hears `cash`; the reservation is asked for the rise, and takes it whole if it can, whatever its state. */
  ghost predicate Asks(g: Shared, g': Shared, id: Id, rid: Id, cash: int, now: int)
    requires id in g.ledger && rid in g.money.rows
  {
    && Bound(g', id, rid)
    && g'.ledger[id].fillCash == Max(g.ledger[id].fillCash, cash)
    && var row, rise := g.money.rows[rid], g'.ledger[id].fillCash - g.ledger[id].fillCash;
    g'.money.rows[rid] == if CanConsume(row, rise, now) then AfterConsume(row, rise) else row
  }

  lemma {:induction false} CountAsks(g: Shared, w: Worker, id: Id, rid: Id, shares: int, cash: int, a: Answer)
    requires Bound(g, id, rid)
    ensures var g' := FillCounted(g, w, id, shares, cash, a);
            Asks(g, g', id, rid, cash, a.bankNow) && g'.ledger[id].resolved == g.ledger[id].resolved
  {
    var (row, delta) := Counted(g.ledger[id], shares, cash);
    var g1 := Do(g, w, id, Seed(shares, cash), a);
    if delta > 0 {
      assert BoundTo(g1, id) == BoundTo(g, id);
      SpendsAre(g1, w, id, BoundTo(g, id), delta, a);
      SpendsHere(g1, w, id, BoundTo(g, id), rid, delta, a);
    }
  }

  lemma {:induction false} CountTakes(g: Shared, w: Worker, id: Id, rid: Id, shares: int, cash: int, a: Answer)
    requires Tracked(g, id, rid) && a.bankNow <= g.money.rows[rid].expiresAt
    ensures var g' := FillCounted(g, w, id, shares, cash, a);
            && Counts(g, g', id, rid, cash) && Tracked(g', id, rid)
            && g'.money.rows[rid].expiresAt == g.money.rows[rid].expiresAt
  {
    CountAsks(g, w, id, rid, shares, cash, a);
  }

  /** What a poll must establish: counter and reservation heard the report, and exactly a final answer closes the row. */
  ghost predicate Heard(g: Shared, g': Shared, id: Id, rid: Id, s: StatusAnswer)
    requires id in g.ledger && rid in g.money.rows
  {
    && Counts(g, g', id, rid, CashReported(s))
    && g'.ledger[id].resolved == Final(s)
    && (!Final(s) ==> Tracked(g', id, rid) && g'.money.rows[rid].expiresAt == g.money.rows[rid].expiresAt)
  }

  lemma {:induction false} ResolvedBooks(g: Shared, w: Worker, id: Id, r: OrderResult, held: bool, a: Answer)
    requires id in g.ledger
    ensures SameBooks(g.(ledger := g.ledger[id := Resolved(g.ledger[id], r)]),
                      DoAll(g, w, id, [Resolve(r)] + IfHeld(held), a))
  {
    var g1 := Do(g, w, id, Resolve(r), a);
    IfHeldKeepsBooks(g1, w, id, held, a);
    assert ([Resolve(r)] + IfHeld(held))[1..] == IfHeld(held);
  }

  lemma {:induction false} WorkedHears(g: Shared, w: Worker, id: Id, rid: Id, held: bool, a: Answer)
    requires Tracked(g, id, rid) && a.status.Found? && Working(a.status.result)
    requires a.bankNow <= g.money.rows[rid].expiresAt
    ensures Heard(g, Worked(g, w, id, a.status.result, held, a), id, rid, a.status)
  {
    var r := a.status.result;
    var g1 := Do(g, w, id, Mark(Acknowledged), a);
    assert BoundTo(g1, id) == BoundTo(g, id);
    var cash := CashReported(a.status);
    var fills := r.filled > 0 && r.average.Some? && r.average.value > 0;
    var g2 := if fills then FillCounted(g1, w, id, r.filled, cash, a) else g1;
    if fills { CountTakes(g1, w, id, rid, r.filled, cash, a); }
    assert Counts(g, g2, id, rid, cash) && Tracked(g2, id, rid);
    ResolvedBooks(g2, w, id, r, held, a);
  }

  /** The state in which a reconcile hears the answer: the lease perhaps taken, the query out. */
  function Entered(g: Shared, w: Worker, id: Id, a: Answer): Shared {
    Asked(if CanLease(g, w, a.dbNow) then Leased(g, w, a.dbNow) else g, id)
  }

  lemma {:induction false} WorkedTakes(g: Shared, w: Worker, id: Id, rid: Id, held: bool, a: Answer)
    requires Bound(g, id, rid) && !g.ledger[id].resolved && a.status.Found? && Working(a.status.result)
    ensures var g' := Worked(g, w, id, a.status.result, held, a);
            Asks(g, g', id, rid, CashReported(a.status), a.bankNow) && g'.ledger[id].resolved == Final(a.status)
  {
    var r, cash := a.status.result, CashReported(a.status);
    var g1 := Do(g, w, id, Mark(Acknowledged), a);
    assert BoundTo(g1, id) == BoundTo(g, id);
    var fills := r.filled > 0 && r.average.Some? && r.average.value > 0;
    var g2 := if fills then FillCounted(g1, w, id, r.filled, cash, a) else g1;
    if fills { CountAsks(g1, w, id, rid, r.filled, cash, a); }
    assert Asks(g, g2, id, rid, cash, a.bankNow);
    ResolvedBooks(g2, w, id, r, held, a);
  }

  /**
   A poll that finds the order working, whatever has become of its reservation: what the counter rises by is consumed
   exactly when the reservation is live, unexpired, and has room for it.
   */
  lemma {:induction false} PollAsks(g: Shared, w: Worker, id: Id, rid: Id, a: Answer)
    requires Bound(g, id, rid) && !g.ledger[id].resolved && a.status.Found? && Working(a.status.result)
    ensures var g' := Reconciled(g, w, id, a);
            Asks(g, g', id, rid, CashReported(a.status), a.bankNow) && g'.ledger[id].resolved == Final(a.status)
  {
    var held, g0 := CanLease(g, w, a.dbNow), Entered(g, w, id, a);
    assert BoundTo(g0, id) == BoundTo(g, id);
    WorkedTakes(g0, w, id, rid, held, a);
    assert Reconciled(g, w, id, a) == Worked(g0, w, id, a.status.result, held, a);
  }

  lemma {:induction false} TerminatedHears(g: Shared, w: Worker, id: Id, rid: Id, held: bool, a: Answer)
    requires Tracked(g, id, rid) && a.status.Found? && Dead(a.status.result)
    ensures Heard(g, Terminated(g, w, id, a.status.result, held, a), id, rid, a.status)
  {
    var r := a.status.result;
    var g1 := DoAll(g, w, id, [Mark(DefinitiveReject), Resolve(r)], a);
    DoTwo(g, w, id, Mark(DefinitiveReject), Resolve(r), a);
    assert BoundTo(g1, id) == BoundTo(g, id);
    var g2 := Settled(g1, w, id, Freeing(ReleaseReason(r)), a);
    ReleasesAre(g1, w, id, BoundTo(g1, id), ReleaseReason(r), a);
    ReleasesKeepConsumed(g1, w, id, BoundTo(g1, id), rid, ReleaseReason(r), a);
    IfHeldKeepsBooks(g2, w, id, held, a);
  }

  lemma {:induction false} PollHears(g: Shared, w: Worker, id: Id, rid: Id, a: Answer)
    requires Tracked(g, id, rid) && CashReported(a.status) >= 0 && a.bankNow <= g.money.rows[rid].expiresAt
    ensures Heard(g, Reconciled(g, w, id, a), id, rid, a.status)
  {
    var held, g1 := CanLease(g, w, a.dbNow), Entered(g, w, id, a);
    assert BoundTo(g1, id) == BoundTo(g, id);
    if a.status.Found? && Dead(a.status.result) {
      TerminatedHears(g1, w, id, rid, held, a);
      assert Reconciled(g, w, id, a) == Terminated(g1, w, id, a.status.result, held, a);
    } else if a.status.Found? && Working(a.status.result) {
      WorkedHears(g1, w, id, rid, held, a);
      assert Reconciled(g, w, id, a) == Worked(g1, w, id, a.status.result, held, a);
    } else {
      IfHeldKeepsBooks(g1, w, id, held, a);
    }
  }

  // ----- any sequence of polls -----

  function Polls(g: Shared, w: Worker, id: Id, polls: seq<Answer>): Shared
    decreases |polls|
  {
    if polls == [] then g else Polls(Reconciled(g, w, id, polls[0]), w, id, polls[1..])
  }

  /** A resolved order is never queried again. */
  lemma {:induction false} ResolvedStays(g: Shared, w: Worker, id: Id, polls: seq<Answer>)
    requires id in g.ledger && g.ledger[id].resolved
    ensures SameBooks(g, Polls(g, w, id, polls))
    decreases |polls|
  {
    if polls != [] {
      var held := CanLease(g, w, polls[0].dbNow);
      IfHeldKeepsBooks(if held then Leased(g, w, polls[0].dbNow) else g, w, id, held, polls[0]);
      ResolvedStays(Reconciled(g, w, id, polls[0]), w, id, polls[1..]);
    }
  }

  /** The reports a live reservation can be held to: none negative, each while it is unexpired. */
  ghost predicate Timely(polls: seq<Answer>, expiresAt: int) {
    forall i :: 0 <= i < |polls| ==> polls[i].bankNow <= expiresAt && CashReported(polls[i].status) >= 0
  }

  lemma {:induction false} HighestNonNegative(polls: seq<Answer>)
    requires forall i :: 0 <= i < |polls| ==> CashReported(polls[i].status) >= 0
    ensures Highest(polls) >= 0
    decreases |polls|
  {
    if polls != [] { HighestNonNegative(polls[1..]); }
  }

  /**
   What is refused over a sequence of reports, for a reservation of `amount` that has consumed `consumed`
   and a counter at `counter`: each rise of the counter is taken whole, or lost whole when there is no room for it.
   */
  function Refused(consumed: int, counter: int, amount: int, polls: seq<Answer>): int
    decreases |polls|
  {
    if polls == [] then 0
    else
      var counter' := Max(counter, CashReported(polls[0].status));
      var consumed' := Took(consumed, amount, counter' - counter);
      (consumed + (counter' - counter) - consumed')
      + if Final(polls[0].status) then 0 else Refused(consumed', counter', amount, polls[1..])
  }

  /** The counter has gone from `counter` to the highest report, and the reservation has taken the rise less what was refused. */
  ghost predicate Consumes(g': Shared, id: Id, rid: Id, consumed: int, counter: int, amount: int, polls: seq<Answer>) {
    && id in g'.ledger && rid in g'.money.rows
    && g'.ledger[id].fillCash == Max(counter, Highest(polls))
    && g'.money.rows[rid].amount == amount
    && g'.money.rows[rid].consumed
       == consumed + (Max(counter, Highest(polls)) - counter) - Refused(consumed, counter, amount, polls)
  }

  lemma {:induction false} ConsumesNext(g': Shared, id: Id, rid: Id, consumed: int, counter: int, amount: int, polls: seq<Answer>)
    requires polls != [] && counter >= 0
    requires var counter' := Max(counter, CashReported(polls[0].status));
             Consumes(g', id, rid, Took(consumed, amount, counter' - counter), counter', amount,
                      if Final(polls[0].status) then [] else polls[1..])
    ensures Consumes(g', id, rid, consumed, counter, amount, polls)
  {}

  /** Over any sequence of polls: the counter ends at the highest report, and the reservation has taken its rise, less what was refused. */
  lemma {:induction false} PollsConsume(g: Shared, w: Worker, id: Id, rid: Id, polls: seq<Answer>)
    requires Tracked(g, id, rid) && Timely(polls, g.money.rows[rid].expiresAt)
    ensures Consumes(Polls(g, w, id, polls), id, rid,
                     g.money.rows[rid].consumed, g.ledger[id].fillCash, g.money.rows[rid].amount, polls)
    decreases |polls|
  {
    if polls != [] {
      var g1 := Reconciled(g, w, id, polls[0]);
      PollHears(g, w, id, rid, polls[0]);
      if Final(polls[0].status) {
        ResolvedStays(g1, w, id, polls[1..]);
      } else {
        PollsConsume(g1, w, id, rid, polls[1..]);
      }
      ConsumesNext(Polls(g1, w, id, polls[1..]), id, rid,
                   g.money.rows[rid].consumed, g.ledger[id].fillCash, g.money.rows[rid].amount, polls);
    }
  }

  ghost predicate AtMost(polls: seq<Answer>, cap: int) {
    forall i :: 0 <= i < |polls| ==> 0 <= CashReported(polls[i].status) <= cap
  }

  /** With room for everything reported nothing is refused. */
  lemma {:induction false} RoomRefusesNothing(consumed: int, counter: int, amount: int, cap: int, polls: seq<Answer>)
    requires AtMost(polls, cap) && counter <= cap && consumed - counter + cap <= amount
    ensures Refused(consumed, counter, amount, polls) == 0 && Highest(polls) <= Max(cap, 0)
    decreases |polls|
  {
    if polls != [] {
      var counter' := Max(counter, CashReported(polls[0].status));
      RoomRefusesNothing(Took(consumed, amount, counter' - counter), counter', amount, cap, polls[1..]);
    }
  }

  /**
   Fill accounting telescopes. With room for the highest report, the reservation has consumed exactly
   as much more than the counter as when the polls began.
   */
  lemma {:induction false} PollsTelescope(g: Shared, w: Worker, id: Id, rid: Id, cap: int, polls: seq<Answer>)
    requires Tracked(g, id, rid) && Timely(polls, g.money.rows[rid].expiresAt) && AtMost(polls, cap)
    requires g.ledger[id].fillCash <= cap
    requires g.money.rows[rid].consumed - g.ledger[id].fillCash + cap <= g.money.rows[rid].amount
    ensures var g' := Polls(g, w, id, polls);
            && id in g'.ledger && rid in g'.money.rows
            && g'.ledger[id].fillCash == Max(g.ledger[id].fillCash, Highest(polls)) <= cap
            && g'.money.rows[rid].consumed - g'.ledger[id].fillCash == g.money.rows[rid].consumed - g.ledger[id].fillCash
            && g'.money.rows[rid].consumed <= g'.money.rows[rid].amount == g.money.rows[rid].amount
  {
    var r, counter := g.money.rows[rid], g.ledger[id].fillCash;
    PollsConsume(g, w, id, rid, polls);
    RoomRefusesNothing(r.consumed, counter, r.amount, cap, polls);
  }

  // ----- the submit acknowledgement -----

  /** The cash an acknowledgement accounts for: at the reported average, or else at the limit price. */
  function AckCash(o: Order, r: OrderResult): int {
    if r.filled > 0 then CashNeededFor(r.filled, if r.average.Some? then r.average.value else o.price) else 0
  }

  /**
   The request has gone out: the ledger row names the permit, and the permit's reservation `rid`, named once,
   is untouched and covers the order. An earlier request may have left its count.
   */
  predicate Requested(g: Shared, o: Order, p: Permit, rid: Id) {
    && o.id in g.ledger && !g.ledger[o.id].resolved && g.ledger[o.id].fillCash >= 0
    && g.ledger[o.id].permitId == p.id && p.id != "" && p.id in g.permits
    && g.permits[p.id].permit.reservationIds == p.reservationIds && Once(p.reservationIds, rid)
    && rid in g.money.rows && g.money.rows[rid].status.Active? && g.money.rows[rid].consumed == 0
    && CashNeededFor(o.size, o.price) <= g.money.rows[rid].amount
  }

  /** The first request for the order: nothing has been counted. */
  predicate InFlight(g: Shared, o: Order, p: Permit, rid: Id) { Requested(g, o, p, rid) && g.ledger[o.id].fillCash == 0 }

  /** The four table writes of an acknowledgement that precede the money. */
  function AckRecorded(g: Shared, w: Worker, o: Order, r: OrderResult, a: Answer): Shared {
    DoAll(g, w, o.id, [Update(AckState(r)), Mark(AckState(r)), Unlease, Resolve(r)], a)
  }

  /** Acknowledged and consumed, but the counters not yet seeded. */
  function AckConsumed(g: Shared, w: Worker, o: Order, p: Permit, r: OrderResult, a: Answer): Shared {
    var g1 := AckRecorded(g, w, o, r, a);
    if r.filled > 0 then DoAll(g1, w, o.id, Spends(p.reservationIds, AckCash(o, r)), a) else g1
  }

  function AckSettled(g: Shared, w: Worker, o: Order, p: Permit, r: OrderResult, a: Answer): Shared {
    DoAll(g, w, o.id, AfterAnswer(o, p, Acked(r)).todo, a)
  }

  lemma {:induction false} AckCashWithin(o: Order, r: OrderResult)
    requires WithinTerms(r, o.size, o.price)
    ensures 0 <= AckCash(o, r) <= CashNeededFor(o.size, o.price)
  {
    CashBounds(o.size, o.price);
    if r.filled > 0 {
      var price := if r.average.Some? then r.average.value else o.price;
      CashBounds(r.filled, price);
      CashMonotone(r.filled, price, o.size, o.price);
    }
  }

  lemma {:induction false} AckRecordedBooks(g: Shared, w: Worker, o: Order, r: OrderResult, a: Answer)
    requires o.id in g.ledger
    ensures var g1 := AckRecorded(g, w, o, r, a);
            && g1.permits == g.permits && g1.money == g.money
            && o.id in g1.ledger
            && g1.ledger[o.id] == Resolved(g.ledger[o.id].(state := AckState(r)), r)
  {
    DoTwo(g, w, o.id, Update(AckState(r)), Mark(AckState(r)), a);
    var g1 := DoAll(g, w, o.id, [Update(AckState(r)), Mark(AckState(r))], a);
    DoTwo(g1, w, o.id, Unlease, Resolve(r), a);
    DoAllAdds(g, w, o.id, [Update(AckState(r)), Mark(AckState(r))], [Unlease, Resolve(r)], a);
    assert [Update(AckState(r)), Mark(AckState(r))] + [Unlease, Resolve(r)]
        == [Update(AckState(r)), Mark(AckState(r)), Unlease, Resolve(r)];
  }

  /** Consuming an amount the reservation has room for; an amount of 0 is refused and changes nothing. */
  lemma {:induction false} SpendsHereOrNothing(g: Shared, w: Worker, id: Id, ids: seq<Id>, rid: Id, cash: int, a: Answer)
    requires Once(ids, rid) && rid in g.money.rows && g.money.rows[rid].Live()
    requires 0 <= cash && g.money.rows[rid].consumed + cash <= g.money.rows[rid].amount
    requires a.bankNow <= g.money.rows[rid].expiresAt
    ensures var g' := DoAll(g, w, id, Spends(ids, cash), a);
            && g'.ledger == g.ledger && g'.permits == g.permits && rid in g'.money.rows
            && g'.money.rows[rid] == if cash > 0 then AfterConsume(g.money.rows[rid], cash) else g.money.rows[rid]
    decreases |ids|
  {
    SpendsAre(g, w, id, ids, cash, a);
    if cash > 0 {
      SpendsHere(g, w, id, ids, rid, cash, a);
    } else {
      SpendsNothing(g, w, id, ids, a);
    }
  }

  lemma {:induction false} SpendsNothing(g: Shared, w: Worker, id: Id, ids: seq<Id>, a: Answer)
    ensures DoAll(g, w, id, Spends(ids, 0), a) == g
    decreases |ids|
  {
    if ids != [] {
      SpendsTail(ids, 0);
      assert Do(g, w, id, Spend(ids[0], 0), a) == g;
      SpendsNothing(g, w, id, ids[1..], a);
    }
  }

  /** Between the consume and the seeding, the reservation is ahead of the counters by what it consumed. */
  lemma {:induction false} AckConsumedAhead(g: Shared, w: Worker, o: Order, p: Permit, r: OrderResult, rid: Id, a: Answer)
    requires Requested(g, o, p, rid) && WithinTerms(r, o.size, o.price) && a.bankNow <= g.money.rows[rid].expiresAt
    ensures var g' := AckConsumed(g, w, o, p, r, a);
            && o.id in g'.ledger && rid in g'.money.rows && BoundTo(g', o.id) == p.reservationIds
            && g'.ledger[o.id].fillCash == g.ledger[o.id].fillCash && g'.money.rows[rid].consumed == AckCash(o, r)
            && (g'.money.rows[rid].Live() || g'.money.rows[rid].consumed == g.money.rows[rid].amount)
            && g'.money.rows[rid].amount == g.money.rows[rid].amount
            && g'.money.rows[rid].expiresAt == g.money.rows[rid].expiresAt
            && g'.ledger[o.id].resolved == (r.orderStatus != Some(Live) && r.orderStatus != Some(Partial))
  {
    AckRecordedBooks(g, w, o, r, a);
    AckCashWithin(o, r);
    if r.filled > 0 {
      SpendsHereOrNothing(AckRecorded(g, w, o, r, a), w, o.id, p.reservationIds, rid, AckCash(o, r), a);
    }
  }

  lemma {:induction false} AckSettledIs(g: Shared, w: Worker, o: Order, p: Permit, r: OrderResult, a: Answer)
    ensures var g1 := AckConsumed(g, w, o, p, r, a);
            SameBooks(if r.filled > 0 then Do(g1, w, o.id, Seed(r.filled, AckCash(o, r)), a) else g1,
                      AckSettled(g, w, o, p, r, a))
  {
    var start := [Update(AckState(r)), Mark(AckState(r)), Unlease, Resolve(r)];
    var g1 := AckConsumed(g, w, o, p, r, a);
    var g2 := if r.filled > 0 then Do(g1, w, o.id, Seed(r.filled, AckCash(o, r)), a) else g1;
    DoAllAdds(g, w, o.id, start, FillActions(o, p, r), a);
    if r.filled > 0 {
      DoAllNext(AckRecorded(g, w, o, r, a), w, o.id, Spends(p.reservationIds, AckCash(o, r)), Seed(r.filled, AckCash(o, r)), a);
    }
    assert DoAll(g, w, o.id, start + FillActions(o, p, r), a) == g2;
    DoAllNext(g, w, o.id, start + FillActions(o, p, r), Unlease, a);
  }

  /** An acknowledgement consumes what it reported, and raises the counter to it if it is not there already. */
  lemma {:induction false} AckCarries(g: Shared, w: Worker, o: Order, p: Permit, r: OrderResult, rid: Id, a: Answer)
    requires Requested(g, o, p, rid) && WithinTerms(r, o.size, o.price) && a.bankNow <= g.money.rows[rid].expiresAt
    ensures var g' := AckSettled(g, w, o, p, r, a);
            && Bound(g', o.id, rid)
            && g'.ledger[o.id].fillCash == Max(g.ledger[o.id].fillCash, AckCash(o, r)) && g'.money.rows[rid].consumed == AckCash(o, r)
            && g'.ledger[o.id].resolved == (r.orderStatus != Some(Live) && r.orderStatus != Some(Partial))
            && (!g'.ledger[o.id].resolved ==> Tracked(g', o.id, rid))
            && g'.money.rows[rid].expiresAt == g.money.rows[rid].expiresAt
            && g'.money.rows[rid].amount == g.money.rows[rid].amount
  {
    AckConsumedAhead(g, w, o, p, r, rid, a);
    AckSettledIs(g, w, o, p, r, a);
    AckCashWithin(o, r);
  }

  /** The acknowledgement of a first request leaves counter and reservation in agreement, at the cash it reported. */
  lemma {:induction false} AckAccounts(g: Shared, w: Worker, o: Order, p: Permit, r: OrderResult, rid: Id, a: Answer)
    requires InFlight(g, o, p, rid) && WithinTerms(r, o.size, o.price) && a.bankNow <= g.money.rows[rid].expiresAt
    ensures var g' := AckSettled(g, w, o, p, r, a);
            && Bound(g', o.id, rid)
            && g'.ledger[o.id].fillCash == g'.money.rows[rid].consumed == AckCash(o, r)
            && g'.ledger[o.id].resolved == (r.orderStatus != Some(Live) && r.orderStatus != Some(Partial))
            && (!g'.ledger[o.id].resolved ==> Tracked(g', o.id, rid))
            && g'.money.rows[rid].expiresAt == g.money.rows[rid].expiresAt
            && g'.money.rows[rid].amount == g.money.rows[rid].amount
  {
    AckCarries(g, w, o, p, r, rid, a);
    AckCashWithin(o, r);
  }

  /**
   From the request to the last poll, with a venue that fills within size and limit: the cash
   consumed is the highest cumulative cash reported, it never exceeds what is reserved, and no
   consume is refused for taking too much.
   */
  lemma {:induction false} SubmitThenPolls(g: Shared, w: Worker, o: Order, p: Permit, r: OrderResult, rid: Id, a: Answer, polls: seq<Answer>)
    requires InFlight(g, o, p, rid) && WithinTerms(r, o.size, o.price) && a.bankNow <= g.money.rows[rid].expiresAt
    requires forall i :: 0 <= i < |polls| ==> FairPoll(polls[i], o.size, o.price, g.money.rows[rid].expiresAt)
    ensures var g' := Polls(AckSettled(g, w, o, p, r, a), w, o.id, polls);
            var unresolved := r.orderStatus == Some(Live) || r.orderStatus == Some(Partial);
            && rid in g'.money.rows && g'.money.rows[rid].amount == g.money.rows[rid].amount
            && g'.money.rows[rid].consumed == (if unresolved then Max(AckCash(o, r), Highest(polls)) else AckCash(o, r))
            && g'.money.rows[rid].consumed <= CashNeededFor(o.size, o.price) <= g'.money.rows[rid].amount
  {
    AckAccounts(g, w, o, p, r, rid, a);
    AckCashWithin(o, r);
    SettledThenPolls(AckSettled(g, w, o, p, r, a), w, o, rid, AckCash(o, r), g.money.rows[rid].expiresAt, polls);
  }

  lemma {:induction false} SettledThenPolls(g: Shared, w: Worker, o: Order, rid: Id, ack: int, expiresAt: int, polls: seq<Answer>)
    requires Bound(g, o.id, rid) && g.ledger[o.id].fillCash == g.money.rows[rid].consumed == ack
    requires !g.ledger[o.id].resolved ==> Tracked(g, o.id, rid)
    requires g.money.rows[rid].expiresAt == expiresAt
    requires ack <= CashNeededFor(o.size, o.price) <= g.money.rows[rid].amount
    requires forall i :: 0 <= i < |polls| ==> FairPoll(polls[i], o.size, o.price, expiresAt)
    ensures var g' := Polls(g, w, o.id, polls);
            && rid in g'.money.rows && g'.money.rows[rid].amount == g.money.rows[rid].amount
            && g'.money.rows[rid].consumed == (if g.ledger[o.id].resolved then ack else Max(ack, Highest(polls)))
            && g'.money.rows[rid].consumed <= CashNeededFor(o.size, o.price)
  {
    if g.ledger[o.id].resolved {
      ResolvedStays(g, w, o.id, polls);
    } else {
      FairPolls(polls, o.size, o.price, expiresAt);
      PollsTelescope(g, w, o.id, rid, CashNeededFor(o.size, o.price), polls);
    }
  }

  // ----- dying between the two writes -----

  /**
   A process that dies after consuming the acknowledged fill but before seeding the counters leaves
   the polls to consume from zero. The total is then the two added up, less what the reservation had
   no room for; so it is right exactly when what it refused makes up the smaller of the two.
   */
  lemma {:induction false} DoubleCountIff(g: Shared, w: Worker, o: Order, p: Permit, r: OrderResult, rid: Id, a: Answer, polls: seq<Answer>)
    requires InFlight(g, o, p, rid) && WithinTerms(r, o.size, o.price) && a.bankNow <= g.money.rows[rid].expiresAt
    requires r.orderStatus == Some(Live) || r.orderStatus == Some(Partial)
    requires Timely(polls, g.money.rows[rid].expiresAt)
    ensures var g' := Polls(AckConsumed(g, w, o, p, r, a), w, o.id, polls);
            var refused := Refused(AckCash(o, r), 0, g.money.rows[rid].amount, polls);
            && rid in g'.money.rows
            && g'.money.rows[rid].consumed == AckCash(o, r) + Highest(polls) - refused
            && (g'.money.rows[rid].consumed == Max(AckCash(o, r), Highest(polls))
                <==> refused == Min(AckCash(o, r), Highest(polls)))
  {
    AckConsumedAhead(g, w, o, p, r, rid, a);
    AckCashWithin(o, r);
    HighestNonNegative(polls);
    PollsConsume(AckConsumed(g, w, o, p, r, a), w, o.id, rid, polls);
  }

  /** With room for both nothing is refused, and the total is right exactly when one of the two is nothing. */
  lemma {:induction false} RoomyDoubleCountIff(ack: int, amount: int, polls: seq<Answer>)
    requires ack >= 0 && AtMost(polls, amount - ack) && ack <= amount
    ensures Refused(ack, 0, amount, polls) == Min(ack, Highest(polls)) <==> ack == 0 || Highest(polls) == 0
  {
    RoomRefusesNothing(ack, 0, amount, amount - ack, polls);
    HighestNonNegative(polls);
  }

  /** One later report: where both fit, the total is right exactly when one is nothing; where they do not, when the report is no more than was acknowledged. */
  lemma {:induction false} OneReportDoubleCountIff(ack: int, amount: int, poll: Answer)
    requires 0 <= ack <= amount && CashReported(poll.status) >= 0
    ensures var cash := CashReported(poll.status);
            Refused(ack, 0, amount, [poll]) == Min(ack, Highest([poll]))
            <==> if ack + cash <= amount then ack == 0 || cash == 0 else cash <= ack
  {
    var cash := CashReported(poll.status);
    assert [poll][1..] == [];
    assert Highest([poll]) == Max(cash, if Final(poll.status) then 0 else Highest([])) == cash;
    assert Refused(ack, 0, amount, [poll]) == ack + cash - Took(ack, amount, cash) by {
      assert Refused(Took(ack, amount, cash), cash, amount, []) == 0;
    }
  }

  /** Every rise of the counter over these reports is larger than the room left. */
  predicate RisesOver(counter: int, room: int, polls: seq<Answer>)
    decreases |polls|
  {
    polls != [] ==>
      var counter' := Max(counter, CashReported(polls[0].status));
      && (counter' > counter ==> counter' - counter > room)
      && (!Final(polls[0].status) ==> RisesOver(counter', room, polls[1..]))
  }

  lemma {:induction false} RefusedWithin(consumed: int, counter: int, amount: int, polls: seq<Answer>)
    requires NoneNegative(polls) && consumed <= amount && counter >= 0
    ensures 0 <= Refused(consumed, counter, amount, polls) <= Max(counter, Highest(polls)) - counter
    ensures Refused(consumed, counter, amount, polls) == Max(counter, Highest(polls)) - counter
            <==> RisesOver(counter, amount - consumed, polls)
    decreases |polls|
  {
    if polls != [] {
      var counter' := Max(counter, CashReported(polls[0].status));
      var consumed' := Took(consumed, amount, counter' - counter);
      HighestNonNegative(polls[1..]);
      RefusedWithin(consumed', counter', amount, polls[1..]);
    }
  }

  ghost predicate NoneNegative(polls: seq<Answer>) {
    forall i :: 0 <= i < |polls| ==> CashReported(polls[i].status) >= 0
  }

  /** When no report exceeds the acknowledgement, the total is right exactly when every rise overdraws the reservation. */
  lemma {:induction false} StaleDoubleCountIff(ack: int, amount: int, polls: seq<Answer>)
    requires 0 <= ack <= amount && NoneNegative(polls) && Highest(polls) <= ack
    ensures Refused(ack, 0, amount, polls) == Min(ack, Highest(polls)) <==> RisesOver(0, amount - ack, polls)
  {
    HighestNonNegative(polls);
    RefusedWithin(ack, 0, amount, polls);
  }

  /**
   A reconcile that dies after raising the counters but before consuming the rise loses it for good:
   the total is short by exactly that much, so it is right exactly when the report was not news.
   */
  lemma {:induction false} LostFillIff(g: Shared, w: Worker, id: Id, rid: Id, cap: int, shares: int, cash: int, a: Answer, polls: seq<Answer>)
    requires Tracked(g, id, rid) && g.money.rows[rid].consumed == g.ledger[id].fillCash <= cap <= g.money.rows[rid].amount
    requires cash <= cap && Timely(polls, g.money.rows[rid].expiresAt) && AtMost(polls, cap)
    ensures var g' := Polls(Do(g, w, id, Seed(shares, cash), a), w, id, polls);
            var truth := Max(Max(g.ledger[id].fillCash, cash), Highest(polls));
            && rid in g'.money.rows
            && g'.money.rows[rid].consumed == truth - (Max(g.ledger[id].fillCash, cash) - g.ledger[id].fillCash)
            && (g'.money.rows[rid].consumed == truth <==> cash <= g.ledger[id].fillCash)
  {
    var g1 := Do(g, w, id, Seed(shares, cash), a);
    assert BoundTo(g1, id) == BoundTo(g, id);
    PollsTelescope(g1, w, id, rid, cap, polls);
  }

  // ----- sending again -----

  /**
   An order sent again after a definitive reject keeps its ledger row's resolved flag. The next
   reconcile asks the venue about it exactly when there was no row, or an unresolved one.
   */
  lemma {:induction false} ResentIsQueriedIff(g: Shared, w: Worker, o: Order, p: Permit, a: Answer)
    ensures Reconciled(Sent(g, w, o, p), w, o.id, a).queries
            == g.queries + if o.id in g.ledger && g.ledger[o.id].resolved then [] else [o.id]
  {
    var g1 := Sent(g, w, o, p);
    var held := CanLease(g1, w, a.dbNow);
    if NeedsReconcile(g1, o.id) {
      PolledAsks(if held then Leased(g1, w, a.dbNow) else g1, w, o.id, held, NotSeen, a);
    } else {
      DoAllAsks(if held then Leased(g1, w, a.dbNow) else g1, w, o.id, IfHeld(held), a);
    }
  }

  /**
   An order sent again on a fresh reservation keeps the counter its earlier requests left, and only what rises
   above it is consumed. With a venue that fills within size and limit, the new reservation ends at the highest
   cash of the new request exactly when the counter it found was no more than the acknowledgement, or no
   later report is more than that.
   */
  lemma {:induction false} CarriedCounterIff(g: Shared, w: Worker, o: Order, p: Permit, r: OrderResult, rid: Id, a: Answer, polls: seq<Answer>)
    requires Requested(g, o, p, rid) && WithinTerms(r, o.size, o.price) && a.bankNow <= g.money.rows[rid].expiresAt
    requires r.orderStatus == Some(Live) || r.orderStatus == Some(Partial)
    requires forall i :: 0 <= i < |polls| ==> FairPoll(polls[i], o.size, o.price, g.money.rows[rid].expiresAt)
    ensures var g' := Polls(AckSettled(g, w, o, p, r, a), w, o.id, polls);
            var carried, ack, highest := g.ledger[o.id].fillCash, AckCash(o, r), Highest(polls);
            && rid in g'.money.rows
            && g'.money.rows[rid].consumed == ack + Max(Max(carried, ack), highest) - Max(carried, ack)
            && (g'.money.rows[rid].consumed == Max(ack, highest) <==> carried <= ack || highest <= ack)
  {
    var carried, ack := g.ledger[o.id].fillCash, AckCash(o, r);
    AckCarries(g, w, o, p, r, rid, a);
    AckCashWithin(o, r);
    FairPolls(polls, o.size, o.price, g.money.rows[rid].expiresAt);
    PollsTelescope(AckSettled(g, w, o, p, r, a), w, o.id, rid, Max(CashNeededFor(o.size, o.price), carried), polls);
  }

  lemma {:induction false} DoAllAsks(g: Shared, w: Worker, id: Id, todo: seq<Action>, a: Answer)
    ensures var g' := DoAll(g, w, id, todo, a);
            g'.calls == g.calls && g'.queries == g.queries && g'.cancels == g.cancels
    decreases |todo|
  {
    if todo != [] { DoAllAsks(Do(g, w, id, todo[0], a), w, id, todo[1..], a); }
  }

  lemma {:induction false} WorkedAsks(g: Shared, w: Worker, id: Id, r: OrderResult, held: bool, a: Answer)
    ensures Worked(g, w, id, r, held, a).queries == g.queries
  {
    var g1 := Do(g, w, id, Mark(Acknowledged), a);
    var fills := r.filled > 0 && r.average.Some? && r.average.value > 0;
    var cash := if fills then CashNeededFor(r.filled, r.average.value) else 0;
    var g2 := if fills then FillCounted(g1, w, id, r.filled, cash, a) else g1;
    if fills {
      var delta := if id in g1.ledger then Counted(g1.ledger[id], r.filled, cash).1 else 0;
      var g3 := Do(g1, w, id, Seed(r.filled, cash), a);
      if delta > 0 { DoAllAsks(g3, w, id, MoneyActions(Spending(delta), BoundTo(g3, id)), a); }
    }
    assert g2.queries == g.queries;
    DoAllAsks(g2, w, id, [Resolve(r)] + IfHeld(held), a);
  }

  lemma {:induction false} PolledAsks(g: Shared, w: Worker, id: Id, held: bool, current: Lifecycle, a: Answer)
    ensures Polled(g, w, id, held, current, a).0.queries == g.queries + [id]
  {
    var asked := Asked(g, id);
    DoAllAsks(asked, w, id, IfHeld(held), a);
    if a.status.Found? {
      var r := a.status.result;
      WorkedAsks(asked, w, id, r, held, a);
      var g1 := DoAll(asked, w, id, [Mark(DefinitiveReject), Resolve(r)], a);
      var g2 := Settled(g1, w, id, Freeing(ReleaseReason(r)), a);
      DoAllAsks(asked, w, id, [Mark(DefinitiveReject), Resolve(r)], a);
      DoAllAsks(g1, w, id, MoneyActions(Freeing(ReleaseReason(r)), BoundTo(g1, id)), a);
      DoAllAsks(g2, w, id, IfHeld(held), a);
    }
  }

  // ----- a terminal answer returns the rest -----

  /** A settled row is left alone by further releases. */
  lemma {:induction false} ReleasesKeepSettled(g: Shared, w: Worker, id: Id, ids: seq<Id>, rid: Id, reason: Money.Reason, a: Answer)
    requires rid in g.money.rows && !g.money.rows[rid].Live()
    ensures var rows := DoAll(g, w, id, Releases(ids, reason), a).money.rows;
            rid in rows && rows[rid] == g.money.rows[rid]
    decreases |ids|
  {
    if ids != [] {
      ReleasesTail(ids, reason);
      ReleasesKeepSettled(Do(g, w, id, Free(ids[0], reason), a), w, id, ids[1..], rid, reason, a);
    }
  }

  predicate Returned(r: Money.Reservation, r': Money.Reservation) {
    !r'.Live() && r'.consumed == r.consumed && r'.amount == r.amount && r'.consumed + r'.released == r'.amount
  }

  /** Every reservation named is settled: what it had not consumed is released, and nothing else. */
  lemma {:induction false} ReleasesSettle(g: Shared, w: Worker, id: Id, ids: seq<Id>, rid: Id, reason: Money.Reason, a: Answer)
    requires Money.Coupled(g.money) && rid in ids && rid in g.money.rows
    ensures var g' := DoAll(g, w, id, Releases(ids, reason), a);
            rid in g'.money.rows && Returned(g.money.rows[rid], g'.money.rows[rid])
    decreases |ids|
  {
    ReleasesTail(ids, reason);
    var g1 := Do(g, w, id, Free(ids[0], reason), a);
    Money.ReleaseCoupled(g.money, ids[0], reason);
    if ids[0] == rid {
      assert Money.RowOk(g.money.rows[rid]);
      ReleasesKeepSettled(g1, w, id, ids[1..], rid, reason, a);
    } else {
      ReleasesSettle(g1, w, id, ids[1..], rid, reason, a);
    }
  }

  /** A poll that finds the order dead resolves it and gives back what its reservations had not consumed. */
  lemma {:induction false} TerminalPollSettles(g: Shared, w: Worker, id: Id, rid: Id, a: Answer)
    requires Money.Coupled(g.money) && NeedsReconcile(g, id) && rid in BoundTo(g, id) && rid in g.money.rows
    requires a.status.Found? && Dead(a.status.result)
    ensures var g' := Reconciled(g, w, id, a);
            && id in g'.ledger && g'.ledger[id].resolved
            && rid in g'.money.rows && Returned(g.money.rows[rid], g'.money.rows[rid])
  {
    var r, held := a.status.result, CanLease(g, w, a.dbNow);
    var g1 := Entered(g, w, id, a);
    var g2 := DoAll(g1, w, id, [Mark(DefinitiveReject), Resolve(r)], a);
    DoTwo(g1, w, id, Mark(DefinitiveReject), Resolve(r), a);
    assert BoundTo(g2, id) == BoundTo(g, id);
    ReleasesAre(g2, w, id, BoundTo(g, id), ReleaseReason(r), a);
    ReleasesSettle(g2, w, id, BoundTo(g, id), rid, ReleaseReason(r), a);
    IfHeldKeepsBooks(Settled(g2, w, id, Freeing(ReleaseReason(r)), a), w, id, held, a);
  }

  /** So does a confirmed cancel, at once; but only an order that is resolved already gets that far. */
  lemma {:induction false} ConfirmedCancelSettles(g: Shared, w: Worker, id: Id, rid: Id, a: Answer)
    requires Money.Coupled(g.money) && id in g.ledger && rid in BoundTo(g, id) && rid in g.money.rows
    requires MayCancel(a.mode) && a.cancelled
    ensures var (g', out) := CancelledFrom(g, w, id, a);
            && (out.CancelConfirmed? <==> g.ledger[id].resolved)
            && (out.CancelConfirmed? ==> rid in g'.money.rows && Returned(g.money.rows[rid], g'.money.rows[rid]))
            && (!out.CancelConfirmed? ==> out.CancelThrew? && g' == g)
  {
    if g.ledger[id].resolved {
      var g0 := Cancelling(g, id);
      var g1 := Do(g0, w, id, Resolve(CANCELED_RESULT), a);
      assert BoundTo(g1, id) == BoundTo(g, id);
      ReleasesAre(g1, w, id, BoundTo(g, id), Money.CancelledReason, a);
      ReleasesSettle(g1, w, id, BoundTo(g, id), rid, Money.CancelledReason, a);
      IfHeldKeepsBooks(Settled(g1, w, id, Freeing(Money.CancelledReason), a), w, id, true, a);
    }
  }
}
