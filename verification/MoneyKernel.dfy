/**
 The money kernel and the events it emits. Whatever a run of kernel calls does to the live
 balances, refused calls and retried serialization conflicts included, is exactly what
 `projectEvent` folds out of the events that run emitted.
 */
module MoneyKernel {
  import opened Wrappers
  import opened BigInt
  import opened SeqSums
  import opened Money
  import opened Projection
  import opened MoneyStore

  const MAX_SAFE_INTEGER := 9_007_199_254_740_991
  const MAX_SERIALIZATION_RETRIES := 2

  datatype Request = Request(
    account: string, asset: string, shares: int, price: int, maxCash: int,
    canonicalVenueMode: bool, policyHash: string, quoteId: string,
    decision: Id, intent: Id, leaseEpoch: int, now: int, reservationId: Id, permitId: Id)

  datatype KernelCode =
    | Granted
    | CapShares | CapCash | PriceRange | VenueMode | PolicyHashMissing | ReservationLimit
    | NoBalanceRow | CashOverBudget | InsufficientFunds
    | SerializationConflict
    | AuthorityRefused(code: Code)

  datatype KernelState = KernelState(money: State, events: seq<Event>)

  function AuthorityRequest(q: Request): ReserveRequest {
    ReserveRequest(Key(q.account, q.asset), CashNeededFor(q.shares, q.price), q.decision, q.intent,
                   q.leaseEpoch, q.now, q.shares, q.policyHash, q.quoteId, q.reservationId, q.permitId)
  }

  /** The checks the kernel makes before it asks the authority. */
  function Precheck(s: State, q: Request): KernelCode {
    var k := Key(q.account, q.asset);
    if q.shares <= 0 || q.shares > MAX_SAFE_INTEGER then CapShares
    else if q.maxCash <= 0 || q.maxCash > MAX_SAFE_INTEGER then CapCash
    else if q.price <= 0 || q.price > UNIT then PriceRange
    else if !q.canonicalVenueMode then VenueMode
    else if q.policyHash == "" then PolicyHashMissing
    else if |ActiveRows(s.rows, k)| >= MAX_OPEN_RESERVATIONS then ReservationLimit
    else if k !in s.balances then NoBalanceRow
    else if CashNeededFor(q.shares, q.price) > q.maxCash then CashOverBudget
    else if s.balances[k].available < CashNeededFor(q.shares, q.price) then InsufficientFunds
    else Granted
  }

  function EventFor(kind: EventType, k: Key, cash: int, n: nat): Event {
    Event(n + 1, kind, Some(BLANK.(account := Some(k.account), asset := Some(k.asset), cash := Units(cash))))
  }

  function Emit(s: KernelState, kind: EventType, k: Key, cash: int): seq<Event> {
    s.events + [EventFor(kind, k, cash, |s.events|)]
  }

  /** `MoneyKernel.reserve`, when the database answers the first `conflicts` attempts with a conflict. */
  function Reserving(s: KernelState, q: Request, conflicts: nat): (KernelState, KernelCode) {
    var pre := Precheck(s.money, q);
    if !pre.Granted? then (s, pre)
    else if conflicts > MAX_SERIALIZATION_RETRIES then (s, SerializationConflict)
    else
      var r := AuthorityRequest(q);
      var (money, code) := Money.Reserve(s.money, r);
      if code.Ok? then (KernelState(money, Emit(s, ReservationCreated, r.key, r.cash)), Granted)
      else (s, AuthorityRefused(code))
  }

  /** `MoneyKernel.release`; a refused guarded update throws before the event is pushed. */
  function Releasing(s: KernelState, k: Key, cash: int): KernelState {
    if cash < 0 || k !in s.money.balances || s.money.balances[k].committed < cash then s
    else KernelState(s.money.(balances := MoveToAvailable(s.money.balances, k, cash)), Emit(s, ReservationReleased, k, cash))
  }

  /** `MoneyKernel.consume`. */
  function Consuming(s: KernelState, k: Key, cash: int): KernelState {
    if cash < 0 || k !in s.money.balances || s.money.balances[k].committed < cash then s
    else KernelState(s.money.(balances := SpendCommitted(s.money.balances, k, cash)), Emit(s, ReservationConsumed, k, cash))
  }

  // ----- the kernel as an object -----

  class Kernel {
    const store: Store
    var events: seq<Event>

    function View(): KernelState reads this, store { KernelState(store.View(), events) }

    constructor (store: Store)
      ensures this.store == store && events == []
    {
      this.store := store;
      events := [];
    }

    /** The bounded retry loop around the authority: each attempt either conflicts, and leaves no trace, or decides. */
    method Reserve(q: Request, conflicts: nat) returns (code: KernelCode)
      modifies this, store
      ensures (View(), code) == Reserving(old(View()), q, conflicts)
      ensures old(store.Valid()) ==> store.Valid()
    {
      var pre := Precheck(store.View(), q);
      if !pre.Granted? { return pre; }
      var r := AuthorityRequest(q);
      code := SerializationConflict;
      var attempt := 0;
      while attempt <= MAX_SERIALIZATION_RETRIES
        invariant 0 <= attempt <= MAX_SERIALIZATION_RETRIES + 1
        invariant attempt <= conflicts && code.SerializationConflict?
        invariant View() == old(View())
      {
        if attempt < conflicts {
          code := SerializationConflict;
        } else {
          var res := store.Reserve(r);
          if res.Ok? {
            events := Emit(KernelState(store.View(), events), ReservationCreated, r.key, r.cash);
            code := Granted;
          } else {
            code := AuthorityRefused(res);
          }
          break;
        }
        attempt := attempt + 1;
      }
    }

    method Release(k: Key, cash: int)
      modifies this, store
      ensures View() == Releasing(old(View()), k, cash)
    {
      if cash < 0 { return; }
      var ok := store.ReleaseFunds(k, cash);
      if !ok { return; }
      events := Emit(KernelState(store.View(), events), ReservationReleased, k, cash);
    }

    method Consume(k: Key, cash: int)
      modifies this, store
      ensures View() == Consuming(old(View()), k, cash)
    {
      if cash < 0 { return; }
      var ok := store.ConsumeFunds(k, cash);
      if !ok { return; }
      events := Emit(KernelState(store.View(), events), ReservationConsumed, k, cash);
    }
  }

  // ----- event sourcing -----

  datatype Call =
    | CallReserve(q: Request, conflicts: nat)
    | CallRelease(k: Key, cash: int)
    | CallConsume(k: Key, cash: int)

  function Apply(s: KernelState, c: Call): KernelState {
    match c
    case CallReserve(q, conflicts) => Reserving(s, q, conflicts).0
    case CallRelease(k, cash) => Releasing(s, k, cash)
    case CallConsume(k, cash) => Consuming(s, k, cash)
  }

  function Run(s: KernelState, calls: seq<Call>): KernelState
    decreases |calls|
  {
    if calls == [] then s else Run(Apply(s, calls[0]), calls[1..])
  }

  function Live(s: State, k: Key, side: Side): int {
    if k !in s.balances then 0 else if side.Available? then s.balances[k].available else s.balances[k].committed
  }

  ghost predicate SourcedBy(s: KernelState, s': KernelState, k: Key, side: Side, effect: Event -> int) {
    && s.events <= s'.events
    && Live(s'.money, k, side) == Live(s.money, k, side) + Total(s'.events[|s.events|..], effect)
  }

  /** From `s` to `s'` the live balance of `k` moved by what `projectEvent` makes of the events logged in between. */
  ghost predicate Sourced(s: KernelState, s': KernelState, k: Key, side: Side) {
    SourcedBy(s, s', k, side, DeltaTo(k, side))
  }

  /** What the projection makes of the kernel's three events. */
  lemma DeltaFor(key: Key, cash: int, n: nat, k: Key, side: Side)
    ensures Delta(EventFor(ReservationCreated, key, cash, n), k, side)
            == if k != key then 0 else if side.Available? then -cash else cash
    ensures Delta(EventFor(ReservationReleased, key, cash, n), k, side)
            == if k != key then 0 else if side.Available? then cash else -cash
    ensures Delta(EventFor(ReservationConsumed, key, cash, n), k, side)
            == if k != key || side.Available? then 0 else -cash
  {}

  /** One emitted event accounts for one balance row's change. */
  lemma EmitSources(s: KernelState, kind: EventType, key: Key, cash: int, money: State, k: Key, side: Side)
    requires Live(money, k, side) - Live(s.money, k, side) == Delta(EventFor(kind, key, cash, |s.events|), k, side)
    ensures Sourced(s, KernelState(money, Emit(s, kind, key, cash)), k, side)
  {
    var e := EventFor(kind, key, cash, |s.events|);
    assert Emit(s, kind, key, cash)[|s.events|..] == [e];
    TotalOne(e, DeltaTo(k, side));
  }

  lemma UnchangedSources(s: KernelState, k: Key, side: Side)
    ensures Sourced(s, s, k, side)
  {
    assert s.events[|s.events|..] == [];
  }

  lemma GrantSources(s: KernelState, r: ReserveRequest, k: Key, side: Side)
    requires Money.Reserve(s.money, r).1.Ok?
    ensures Sourced(s, KernelState(Money.Reserve(s.money, r).0, Emit(s, ReservationCreated, r.key, r.cash)), k, side)
  {
    DeltaFor(r.key, r.cash, |s.events|, k, side);
    EmitSources(s, ReservationCreated, r.key, r.cash, Money.Reserve(s.money, r).0, k, side);
  }

  lemma ReserveSources(s: KernelState, q: Request, conflicts: nat, k: Key, side: Side)
    ensures Sourced(s, Reserving(s, q, conflicts).0, k, side)
  {
    if Reserving(s, q, conflicts).1.Granted? {
      GrantSources(s, AuthorityRequest(q), k, side);
    } else {
      UnchangedSources(s, k, side);
    }
  }

  lemma ReleaseSources(s: KernelState, key: Key, cash: int, k: Key, side: Side)
    ensures Sourced(s, Releasing(s, key, cash), k, side)
  {
    if cash < 0 || key !in s.money.balances || s.money.balances[key].committed < cash {
      UnchangedSources(s, k, side);
    } else {
      DeltaFor(key, cash, |s.events|, k, side);
      EmitSources(s, ReservationReleased, key, cash, Releasing(s, key, cash).money, k, side);
    }
  }

  lemma ConsumeSources(s: KernelState, key: Key, cash: int, k: Key, side: Side)
    ensures Sourced(s, Consuming(s, key, cash), k, side)
  {
    if cash < 0 || key !in s.money.balances || s.money.balances[key].committed < cash {
      UnchangedSources(s, k, side);
    } else {
      DeltaFor(key, cash, |s.events|, k, side);
      EmitSources(s, ReservationConsumed, key, cash, Consuming(s, key, cash).money, k, side);
    }
  }

  lemma ApplySources(s: KernelState, c: Call, k: Key, side: Side)
    ensures Sourced(s, Apply(s, c), k, side)
  {
    match c
    case CallReserve(q, conflicts) => ReserveSources(s, q, conflicts, k, side);
    case CallRelease(key, cash) => ReleaseSources(s, key, cash, k, side);
    case CallConsume(key, cash) => ConsumeSources(s, key, cash, k, side);
  }

  lemma SourcedTransitive(a: KernelState, b: KernelState, c: KernelState, k: Key, side: Side, effect: Event -> int)
    requires SourcedBy(a, b, k, side, effect) && SourcedBy(b, c, k, side, effect)
    ensures SourcedBy(a, c, k, side, effect)
  {
    TotalChain(a.events, b.events, c.events, effect);
  }

  /** Event sourcing agrees with live money, for every run of kernel calls. */
  lemma {:induction false} RunSources(s: KernelState, calls: seq<Call>, k: Key, side: Side)
    ensures Sourced(s, Run(s, calls), k, side)
    decreases |calls|
  {
    if calls == [] {
      UnchangedSources(s, k, side);
    } else {
      ApplySources(s, calls[0], k, side);
      RunSources(Apply(s, calls[0]), calls[1..], k, side);
      SourcedTransitive(s, Apply(s, calls[0]), Run(s, calls), k, side, DeltaTo(k, side));
    }
  }

  /** Conflicts beyond the retry budget, like every refusal, leave neither a balance change nor an event. */
  lemma RefusedLeavesNothing(s: KernelState, q: Request, conflicts: nat)
    ensures Reserving(s, q, conflicts).1.Granted? <==> Reserving(s, q, conflicts).0 != s
    ensures conflicts <= MAX_SERIALIZATION_RETRIES ==> Reserving(s, q, conflicts) == Reserving(s, q, 0)
    ensures conflicts > MAX_SERIALIZATION_RETRIES ==> Reserving(s, q, conflicts).0 == s
  {
    var s' := Reserving(s, q, conflicts).0;
    if Reserving(s, q, conflicts).1.Granted? {
      assert |s'.events| == |s.events| + 1;
    }
  }

  /** What a kernel request asks of the authority. */
  ghost function Demand(q: Request): ReserveRequest {
    ReserveRequest(Key(q.account, q.asset), CashNeededFor(q.shares, q.price), q.decision, q.intent,
                   q.leaseEpoch, q.now, q.shares, q.policyHash, q.quoteId, q.reservationId, q.permitId)
  }

  /** What a refusal by the kernel says is so. */
  ghost predicate RefusedFor(code: KernelCode, s: State, q: Request, conflicts: nat) {
    var k := Key(q.account, q.asset);
    match code
    case CapShares => !(0 < q.shares <= 9_007_199_254_740_991)
    case CapCash => !(0 < q.maxCash <= 9_007_199_254_740_991)
    case PriceRange => !(0 < q.price <= 1_000_000)
    case VenueMode => !q.canonicalVenueMode
    case PolicyHashMissing => q.policyHash == ""
    case ReservationLimit => NotReservedFor(ReservationLimitExceeded, s, Demand(q))
    case NoBalanceRow => k !in s.balances
    case CashOverBudget => q.maxCash < CashNeededFor(q.shares, q.price)
    case InsufficientFunds => k in s.balances && s.balances[k].available < CashNeededFor(q.shares, q.price)
    case SerializationConflict => conflicts > 2
    case AuthorityRefused(reason) => NotReservedFor(reason, s, Demand(q))
    case Granted => false
  }

  /**
   A grant is exactly the kernel's ranges and budget, a conflict-free attempt within the retries, and what the authority
   demands; it leaves what the authority leaves and one event, and a refusal is for a reason that is so.
   */
  lemma {:induction false} GrantedIff(s: KernelState, q: Request, conflicts: nat)
    ensures var (s', code) := Reserving(s, q, conflicts);
            && (code == Granted <==>
                  && 0 < q.shares <= 9_007_199_254_740_991 && 0 < q.maxCash <= 9_007_199_254_740_991
                  && 0 < q.price <= 1_000_000 && q.canonicalVenueMode
                  && CashNeededFor(q.shares, q.price) <= q.maxCash && conflicts <= 2
                  && Reservable(s.money, Demand(q)))
            && (code == Granted ==>
                  && ReserveLeaves(s.money, Demand(q), s'.money, Ok)
                  && s'.events == s.events + [Event(|s.events| + 1, ReservationCreated, Some(BLANK.(
                       account := Some(q.account), asset := Some(q.asset), cash := Units(CashNeededFor(q.shares, q.price)))))])
            && (code != Granted ==> s' == s && RefusedFor(code, s.money, q, conflicts))
  {
    ReservesSo(s.money, AuthorityRequest(q));
    var k := Key(q.account, q.asset);
    assert ActiveRows(s.money.rows, k) == set id | id in s.money.rows && s.money.rows[id].key == k && s.money.rows[id].status == Active;
  }

  // ----- where live money and the log part ways -----

  /** A release that dies between its balance update and its event leaves the two apart exactly when it moved something. */
  lemma CrashedReleaseSourcedIff(s: KernelState, k: Key, cash: int)
    requires cash >= 0 && k in s.money.balances && s.money.balances[k].committed >= cash
    ensures (forall side :: Sourced(s, KernelState(Releasing(s, k, cash).money, s.events), k, side)) <==> cash == 0
  {
    var s' := KernelState(Releasing(s, k, cash).money, s.events);
    assert s.events[|s.events|..] == [];
    if cash != 0 { assert !Sourced(s, s', k, Available); }
  }

  /** The reservation manager emits no events, so its successful consumes never reach the projection. */
  lemma ManagerConsumeSourcedIff(s: KernelState, id: Id, filled: int, now: int)
    requires Coupled(s.money)
    ensures var (money, code) := Money.Consume(s.money, id, filled, now);
            (forall k, side :: Sourced(s, KernelState(money, s.events), k, side)) <==> !code.Ok?
  {
    var (money, code) := Money.Consume(s.money, id, filled, now);
    assert s.events[|s.events|..] == [];
    if code.Ok? {
      CommittedCovers(s.money, id);
      assert !Sourced(s, KernelState(money, s.events), s.money.rows[id].key, Committed);
    }
  }

  /** Nor do its releases, the expiry sweep's among them: one agrees with the log exactly when it is refused or returns nothing. */
  lemma ManagerReleaseSourcedIff(s: KernelState, id: Id, reason: Reason)
    requires Coupled(s.money)
    ensures var (money, code) := Money.Release(s.money, id, reason);
            (forall k, side :: Sourced(s, KernelState(money, s.events), k, side))
            <==> !code.Ok? || s.money.rows[id].consumed == s.money.rows[id].amount
  {
    var (money, code) := Money.Release(s.money, id, reason);
    assert s.events[|s.events|..] == [];
    if code.Ok? && s.money.rows[id].consumed != s.money.rows[id].amount {
      ReleaseReturnsRemainder(s.money, id, reason);
      assert !Sourced(s, KernelState(money, s.events), s.money.rows[id].key, Committed);
    }
  }

  /** The audit event of an attested credit; the projection knows no such type. */
  function Attested(s: KernelState, k: Key, amount: int): seq<Event> {
    Emit(s, Other("FUNDER_CASH_ATTESTED"), k, amount)
  }

  /** `applyAttestedCredit`: the money, and the event that goes with it. */
  function Crediting(s: KernelState, account: string, amount: int, n: nat): KernelState {
    var (money, code) := Money.Credit(s.money, account, amount, n);
    KernelState(money, if code.Ok? then Attested(s, Key(account, PUSD), amount) else s.events)
  }

  /** The only inflow never reaches the projection: a credit, logged as it is, agrees with the log exactly when it adds nothing. */
  lemma CreditSourcedIff(s: KernelState, account: string, amount: int, n: nat)
    requires Coupled(s.money)
    ensures (forall k, side :: Sourced(s, Crediting(s, account, amount, n), k, side))
            <==> CreditedBy(s.money, DoCredit(account, amount, n), Key(account, PUSD)) == 0
  {
    var (money, code) := Money.Credit(s.money, account, amount, n);
    var key, s' := Key(account, PUSD), Crediting(s, account, amount, n);
    CreditMoves(s.money, account, amount, n);
    if CreditedBy(s.money, DoCredit(account, amount, n), key) == 0 {
      forall k, side ensures Sourced(s, s', k, side) {
        assert Live(money, k, side) == Live(s.money, k, side);
        CreditLogsNothing(s, code.Ok?, key, amount, k, side);
      }
    } else {
      CreditLogsNothing(s, code.Ok?, key, amount, key, Available);
      assert !Sourced(s, s', key, Available);
    }
  }

  lemma CreditLogsNothing(s: KernelState, logged: bool, key: Key, amount: int, k: Key, side: Side)
    ensures var events := if logged then Attested(s, key, amount) else s.events;
            s.events <= events && Total(events[|s.events|..], DeltaTo(k, side)) == 0
  {
    var e := EventFor(Other("FUNDER_CASH_ATTESTED"), key, amount, |s.events|);
    if logged {
      assert Attested(s, key, amount)[|s.events|..] == [e];
      TotalOne(e, DeltaTo(k, side));
    } else {
      assert s.events[|s.events|..] == [];
    }
  }

  /** A credit moves one figure: the available cash of the account it names. */
  lemma CreditMoves(s: State, account: string, amount: int, n: nat)
    requires Coupled(s)
    ensures var s', key := Money.Credit(s, account, amount, n).0, Key(account, PUSD);
            forall k, side :: Live(s', k, side) == Live(s, k, side)
              + if k == key && side.Available? then CreditedBy(s, DoCredit(account, amount, n), key) else 0
  {
    if Key(account, PUSD) in s.balances { CommittedNonNegative(s, Key(account, PUSD)); }
  }
}
