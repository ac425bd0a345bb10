/**
 The balance projection: what one kernel event does to a balance, and the incremental,
 checkpointed engine that folds the event log into the `balance_projections` table.

 An amount arrives as a string in a JSON payload. A missing optional amount counts as zero, a
 missing required one or an unreadable one makes the whole batch fail and roll back.
 */
module Projection {
  import opened BigInt
  import opened Wrappers
  import opened Money
  import opened SeqSums

  datatype EventType =
    | ReservationCreated | ReservationConsumed | ReservationReleased
    | OrderFilled | OrderPartial
    | FundsTransferred | PnlRealized | Correction | Settlement | Redeem
    | Other(name: string)

  datatype Amount = Absent | Unreadable | Units(n: int)

  datatype Payload = Payload(
    account: Option<string>, asset: Option<string>,
    cash: Amount, fee: Amount, rebate: Amount, amount: Amount, pnl: Amount,
    isGain: Option<bool>,
    reversal: Option<Payload>, reversalType: Option<EventType>)

  /** One row of `kernel_events`; a payload that is not a JSON object is `None`. */
  datatype Event = Event(seqNo: int, kind: EventType, payload: Option<Payload>)

  datatype Projected =
    | NoEffect
    | Moves(account: Option<string>, asset: Option<string>, available: int, committed: int)
    | Fails

  function Move(p: Payload, available: int, committed: int): Projected {
    Moves(p.account, p.asset, available, committed)
  }

  function OrZero(a: Amount): Amount { if a.Absent? then Units(0) else a }

  /** `projectEvent`. A correction applies its reversal as an event of the reversal's type. */
  function ProjectEvent(kind: EventType, p: Payload): Projected
    decreases p
  {
    match kind
    case ReservationCreated => if p.cash.Units? then Move(p, -p.cash.n, p.cash.n) else Fails
    case ReservationConsumed => if p.cash.Units? then Move(p, 0, -p.cash.n) else Fails
    case ReservationReleased => if p.cash.Units? then Move(p, p.cash.n, -p.cash.n) else Fails
    case OrderFilled => ProjectFill(p)
    case OrderPartial => ProjectFill(p)
    case FundsTransferred => NoEffect
    case PnlRealized => if p.pnl.Units? then Move(p, p.pnl.n, 0) else Fails
    case Correction =>
      if p.reversal.Some? then
        ProjectEvent(if p.reversalType.Some? then p.reversalType.value else Correction, p.reversal.value)
      else NoEffect
    case Settlement =>
      if !p.amount.Units? then Fails
      else if p.isGain == Some(false) then Move(p, -p.amount.n, 0) else Move(p, p.amount.n, 0)
    case Redeem => if p.amount.Units? then Move(p, p.amount.n, 0) else Fails
    case Other(_) => NoEffect
  }

  function ProjectFill(p: Payload): Projected {
    var fee, rebate := OrZero(p.fee), OrZero(p.rebate);
    if p.cash.Units? && fee.Units? && rebate.Units?
    then Move(p, 0, -(p.cash.n + fee.n - rebate.n)) else Fails
  }

  function Project(e: Event): Projected {
    if e.payload.Some? then ProjectEvent(e.kind, e.payload.value) else NoEffect
  }

  // ----- what each type means for the money -----

  /** The cash of a fill that leaves the account: what was paid, and the fee, less the rebate. */
  predicate FillCosts(p: Payload, cost: int) {
    p.cash.Units? && !p.fee.Unreadable? && !p.rebate.Unreadable?
    && cost + (if p.rebate.Units? then p.rebate.n else 0) == p.cash.n + if p.fee.Units? then p.fee.n else 0
  }

  /**
   In accounting terms: a reservation and its release move cash between available and committed and change no total; a
   consume and a fill take their cost out of what is committed; profit, settlement and redemption reach what is available,
   a loss lowers it; and no other type moves anything.
   */
  predicate Accounts(kind: EventType, p: Payload, r: Projected) {
    && (r.Moves? ==> r.account == p.account && r.asset == p.asset)
    && match kind
       case ReservationCreated => if p.cash.Units? then r.Moves? && r.available + r.committed == 0 && r.committed == p.cash.n else r.Fails?
       case ReservationReleased => if p.cash.Units? then r.Moves? && r.available + r.committed == 0 && r.available == p.cash.n else r.Fails?
       case ReservationConsumed => if p.cash.Units? then r.Moves? && r.available == 0 && r.committed + p.cash.n == 0 else r.Fails?
       case OrderFilled => SpendsFill(p, r)
       case OrderPartial => SpendsFill(p, r)
       case PnlRealized => if p.pnl.Units? then r.Moves? && r.committed == 0 && r.available == p.pnl.n else r.Fails?
       case Redeem => if p.amount.Units? then r.Moves? && r.committed == 0 && r.available == p.amount.n else r.Fails?
       case Settlement =>
         if p.amount.Units?
         then r.Moves? && r.committed == 0 && (if p.isGain == Some(false) then r.available + p.amount.n == 0 else r.available == p.amount.n)
         else r.Fails?
       case _ => r.NoEffect?
  }

  predicate SpendsFill(p: Payload, r: Projected) {
    if p.cash.Units? && !p.fee.Unreadable? && !p.rebate.Unreadable?
    then r.Moves? && r.available == 0 && FillCosts(p, -r.committed) else r.Fails?
  }

  /** What a correction of a correction of ... reverses in the end. */
  function Innermost(kind: EventType, p: Payload): (EventType, Payload)
    decreases p
  {
    match (kind, p.reversal, p.reversalType)
    case (Correction, Some(reversed), Some(named)) => Innermost(named, reversed)
    case (Correction, Some(reversed), None) => Innermost(Correction, reversed)
    case _ => (kind, p)
  }

  /** Every event, at whatever depth of correction, does to the money what its innermost payload says. */
  lemma {:induction false} ProjectsAsAccounted(kind: EventType, p: Payload)
    ensures var (inner, payload) := Innermost(kind, p); Accounts(inner, payload, ProjectEvent(kind, p))
    decreases p
  {
    if kind == Correction && p.reversal.Some? {
      ProjectsAsAccounted(if p.reversalType.Some? then p.reversalType.value else Correction, p.reversal.value);
    }
  }

  // ----- linearity and corrections -----

  function ScaleAmount(c: int, a: Amount): Amount { if a.Units? then Units(c * a.n) else a }

  /** The payload with every amount multiplied by `c`, at every depth of reversal. */
  function Scale(c: int, p: Payload): Payload
    decreases p
  {
    p.(cash := ScaleAmount(c, p.cash), fee := ScaleAmount(c, p.fee), rebate := ScaleAmount(c, p.rebate),
       amount := ScaleAmount(c, p.amount), pnl := ScaleAmount(c, p.pnl),
       reversal := if p.reversal.Some? then Some(Scale(c, p.reversal.value)) else None)
  }

  function ScaleProjected(c: int, r: Projected): Projected {
    if r.Moves? then r.(available := c * r.available, committed := c * r.committed) else r
  }

  lemma FillLinear(c: int, p: Payload)
    ensures ProjectFill(Scale(c, p)) == ScaleProjected(c, ProjectFill(p))
  {
    if ProjectFill(p).Moves? {
      var fee, rebate := OrZero(p.fee).n, OrZero(p.rebate).n;
      assert c * -(p.cash.n + fee - rebate) == -(c * p.cash.n + c * fee - c * rebate);
    }
  }

  /** `projectEvent` is linear in the amounts of its payload. */
  lemma {:induction false} ProjectEventLinear(c: int, kind: EventType, p: Payload)
    ensures ProjectEvent(kind, Scale(c, p)) == ScaleProjected(c, ProjectEvent(kind, p))
    decreases p
  {
    match kind
    case OrderFilled => FillLinear(c, p);
    case OrderPartial => FillLinear(c, p);
    case Correction =>
      if p.reversal.Some? {
        ProjectEventLinear(c, if p.reversalType.Some? then p.reversalType.value else Correction, p.reversal.value);
      }
    case _ =>
  }

  const BLANK := Payload(None, None, Absent, Absent, Absent, Absent, Absent, None, None, None)

  /** The correction the log format prescribes: the negated payload, with the type it had. */
  function CorrectionOf(seqNo: int, e: Event): Event
    requires e.payload.Some?
  {
    Event(seqNo, Correction, Some(BLANK.(reversal := Some(Scale(-1, e.payload.value)), reversalType := Some(e.kind))))
  }

  /** A correction of a correction of ... an event. */
  function Corrections(seqNo: int, e: Event, n: nat): (r: Event)
    requires e.payload.Some?
    ensures r.payload.Some?
  {
    if n == 0 then e else CorrectionOf(seqNo + n, Corrections(seqNo, e, n - 1))
  }

  /** Whatever an event does, its correction does the opposite; what fails keeps failing. */
  lemma CorrectionNegates(seqNo: int, e: Event)
    requires e.payload.Some?
    ensures Project(CorrectionOf(seqNo, e)) == ScaleProjected(-1, Project(e))
  {
    ProjectEventLinear(-1, e.kind, e.payload.value);
  }

  lemma {:induction false} NestedCorrectionsAlternate(seqNo: int, e: Event, n: nat)
    requires e.payload.Some?
    ensures Project(Corrections(seqNo, e, n)) == if n % 2 == 0 then Project(e) else ScaleProjected(-1, Project(e))
  {
    if n > 0 {
      NestedCorrectionsAlternate(seqNo, e, n - 1);
      CorrectionNegates(seqNo + n, Corrections(seqNo, e, n - 1));
      if Project(e).Moves? {
        assert -1 * (-1 * Project(e).available) == Project(e).available;
        assert -1 * (-1 * Project(e).committed) == Project(e).committed;
      }
    }
  }

  // ----- the table and its plain fold -----

  datatype Row = Row(available: int, committed: int, lastSeq: int)

  type Table = map<Key, Row>

  /** The upsert into `balance_projections`. */
  function Upsert(t: Table, k: Key, available: int, committed: int, seqNo: int): Table {
    if k in t
    then t[k := Row(t[k].available + available, t[k].committed + committed, Max(t[k].lastSeq, seqNo))]
    else t[k := Row(available, committed, seqNo)]
  }

  /** One event on the table; `None` is an exception. account and asset are NOT NULL columns. */
  function ApplyEvent(t: Table, e: Event): Option<Table> {
    match Project(e)
    case NoEffect => Some(t)
    case Fails => None
    case Moves(account, asset, da, dc) =>
      if account.Some? && asset.Some? then Some(Upsert(t, Key(account.value, asset.value), da, dc, e.seqNo))
      else None
  }

  /** The plain fold the engine has to agree with. */
  function Fold(t: Table, events: seq<Event>): Option<Table>
    decreases |events|
  {
    if events == [] then Some(t)
    else
      var t' := ApplyEvent(t, events[0]);
      if t'.None? then None else Fold(t'.value, events[1..])
  }

  lemma {:induction false} FoldSplit(t: Table, a: seq<Event>, b: seq<Event>)
    ensures Fold(t, a + b) == if Fold(t, a).None? then None else Fold(Fold(t, a).value, b)
    decreases |a|
  {
    if a == [] {
      assert a + b == b;
    } else {
      assert (a + b)[1..] == a[1..] + b;
      var t' := ApplyEvent(t, a[0]);
      if t'.Some? { FoldSplit(t'.value, a[1..], b); }
    }
  }

  /** The two columns of a balance. */
  datatype Side = Available | Committed

  /** What one event adds to one column of the balance of `k`. */
  function Delta(e: Event, k: Key, side: Side): int {
    match Project(e)
    case Moves(Some(account), Some(asset), da, dc) =>
      if Key(account, asset) != k then 0 else if side.Available? then da else dc
    case _ => 0
  }

  function DeltaTo(k: Key, side: Side): Event -> int { (e: Event) => Delta(e, k, side) }

  /** The sum of the events' effects on the balance of `k`. */
  function Net(events: seq<Event>, k: Key, side: Side): int { Total(events, DeltaTo(k, side)) }

  function BalanceIn(t: Table, k: Key, side: Side): int {
    if k !in t then 0 else if side.Available? then t[k].available else t[k].committed
  }

  /** The event names this balance. */
  predicate Touches(e: Event, k: Key) {
    match Project(e)
    case Moves(account, asset, _, _) => account == Some(k.account) && asset == Some(k.asset)
    case _ => false
  }

  /** Each balance moves by what the event adds to it, and a row says which event touched it last. */
  lemma ApplyAdds(t: Table, e: Event, k: Key, side: Side)
    requires ApplyEvent(t, e).Some?
    ensures BalanceIn(ApplyEvent(t, e).value, k, side) == BalanceIn(t, k, side) + Delta(e, k, side)
    ensures var t' := ApplyEvent(t, e).value;
            && (k in t' <==> k in t || Touches(e, k))
            && (k in t' ==> t'[k].lastSeq == if !Touches(e, k) then t[k].lastSeq
                                             else if k in t && t[k].lastSeq > e.seqNo then t[k].lastSeq else e.seqNo)
  {}

  /** The fold's balances are the sums of the events' effects, whatever order they came in. */
  lemma {:induction false} FoldAddsUp(t: Table, events: seq<Event>, k: Key, side: Side)
    requires Fold(t, events).Some?
    ensures BalanceIn(Fold(t, events).value, k, side) == BalanceIn(t, k, side) + Net(events, k, side)
    decreases |events|
  {
    if events != [] {
      var t' := ApplyEvent(t, events[0]).value;
      ApplyAdds(t, events[0], k, side);
      FoldAddsUp(t', events[1..], k, side);
      assert Fold(t, events) == Fold(t', events[1..]);
    }
  }

  /** An event and, anywhere later in the log, its correction leave every balance as if neither had happened. */
  lemma CorrectionsCancel(before: seq<Event>, e: Event, between: seq<Event>, seqNo: int, after: seq<Event>, k: Key, side: Side)
    requires e.payload.Some?
    ensures Net(before + [e] + (between + [CorrectionOf(seqNo, e)] + after), k, side) == Net(before + (between + after), k, side)
  {
    var c := CorrectionOf(seqNo, e);
    CorrectionNegates(seqNo, e);
    TotalInsert(before, e, between + [c] + after, DeltaTo(k, side));
    assert before + (between + [c] + after) == (before + between) + [c] + after;
    TotalInsert(before + between, c, after, DeltaTo(k, side));
    assert before + (between + after) == before + between + after;
  }

  /** Without a reversal type the correction of a plain event is read as an empty correction: it cancels nothing. */
  lemma UntypedCorrectionCancelsIff(seqNo: int, e: Event, k: Key, side: Side)
    requires e.payload.Some? && e.payload.value.reversal.None?
    ensures var c := CorrectionOf(seqNo, e);
            var untyped := c.(payload := Some(c.payload.value.(reversalType := None)));
            Net([e, untyped], k, side) == 0 <==> Delta(e, k, side) == 0
  {
    var c := CorrectionOf(seqNo, e);
    var untyped := c.(payload := Some(c.payload.value.(reversalType := None)));
    assert ProjectEvent(Correction, Scale(-1, e.payload.value)) == NoEffect;
    assert Project(untyped) == NoEffect;
    assert [e, untyped] == [e] + [untyped] + [];
    TotalInsert([e], untyped, [], DeltaTo(k, side));
    assert [e] + [] == [e];
    TotalOne(e, DeltaTo(k, side));
  }
}
