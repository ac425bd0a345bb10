/**
 The money and reservation state machine.

 Balances and reservation rows live in one database; every operation below is one
 transaction on them, written as a function of the state so that whole runs can be
 reasoned about. The UPDATE statements of the program are guarded (`committed >= n`) and
 several of them never look at their row count, so the guarded updates here silently do
 nothing when the guard fails. `Coupled` is what makes that harmless.
 */
module Money {
  import opened MapSums

  type Id = string

  datatype Key = Key(account: string, asset: string)

  datatype Balance = Balance(available: int, committed: int)

  datatype Status = Active | PartiallyConsumed | Consumed | Released | Expired

  datatype Reservation = Reservation(
    key: Key, intent: Id, decision: Id, permit: Id,
    amount: int, consumed: int, released: int,
    status: Status, expiresAt: int)
  {
    predicate Live() { status.Active? || status.PartiallyConsumed? }
  }

  /** The two tables the transactions touch, and the risk decisions already recorded. */
  datatype State = State(
    balances: map<Key, Balance>, rows: map<Id, Reservation>, decisions: set<Id>)

  const EMPTY := State(map[], map[], {})
  const MAX_OPEN_RESERVATIONS := 16
  const PERMIT_TTL_MS := 60_000
  /** Amount columns are NUMERIC(18,8) with a non-negativity check. */
  const COLUMN_LIMIT := 10_000_000_000
  const MAX_DATE_MS := 8_640_000_000_000_000

  datatype Code =
    | Ok
    | PolicyHashRequired | QuoteIdRequired | LeaseEpochMismatch
    | DuplicateIntent | BalanceRowMissing | InsufficientAvailable | ReservationLimitExceeded
    | MoneyAuthorityFailed
    | InvalidAmount | ReservationNotFound | PermitExpired | ReservationNotActive | OverConsume
    | AccountingInvariantViolated
    | CreditAccountMissing | CreditSourceRequired | CreditAmountInvalid | CreditWouldDecrease

  datatype Reason = CancelledReason | ExpiredReason | RejectedReason

  datatype ReserveRequest = ReserveRequest(
    key: Key, cash: int, decision: Id, intent: Id, leaseEpoch: int, now: int,
    maxQty: int, policyHash: string, quoteId: string,
    reservationId: Id, permitId: Id)

  // ----- guarded UPDATE statements -----

  function MoveToCommitted(bs: map<Key, Balance>, k: Key, n: int): map<Key, Balance> {
    if k in bs && bs[k].available >= n
    then bs[k := Balance(bs[k].available - n, bs[k].committed + n)] else bs
  }

  function MoveToAvailable(bs: map<Key, Balance>, k: Key, n: int): map<Key, Balance> {
    if k in bs && bs[k].committed >= n
    then bs[k := Balance(bs[k].available + n, bs[k].committed - n)] else bs
  }

  function SpendCommitted(bs: map<Key, Balance>, k: Key, n: int): map<Key, Balance> {
    if k in bs && bs[k].committed >= n
    then bs[k := Balance(bs[k].available, bs[k].committed - n)] else bs
  }

  // ----- transactions -----

  function ActiveRows(rows: map<Id, Reservation>, k: Key): set<Id> {
    set id | id in rows && rows[id].key == k && rows[id].status.Active?
  }

  predicate FitsColumn(n: int) { 0 <= n < COLUMN_LIMIT }

  /** A time outside these bounds is an invalid date, and formatting it throws. */
  predicate ValidDate(ms: int) { -MAX_DATE_MS <= ms <= MAX_DATE_MS }

  /** What the columns and the formatting of the expiry take; anything else is an exception. */
  predicate Storable(r: ReserveRequest) {
    FitsColumn(r.cash) && FitsColumn(r.maxQty) && ValidDate(r.now) && ValidDate(r.now + PERMIT_TTL_MS)
  }

  predicate ActiveIntent(rows: map<Id, Reservation>, intent: Id) {
    exists id :: id in rows && rows[id].intent == intent && rows[id].status.Active?
  }

  predicate ActiveIntentAt(rows: map<Id, Reservation>, intent: Id, k: Key) {
    exists id :: id in rows && rows[id].intent == intent && rows[id].key == k && rows[id].status.Active?
  }

  function NewRow(r: ReserveRequest): Reservation {
    Reservation(r.key, r.intent, r.decision, r.permitId, r.cash, 0, 0, Active, r.now + PERMIT_TTL_MS)
  }

  /** `PgMoneyAuthority.reserve`: any refusal and any constraint violation rolls everything back. */
  function Reserve(s: State, r: ReserveRequest): (State, Code) {
    if r.policyHash == "" then (s, PolicyHashRequired)
    else if r.quoteId == "" then (s, QuoteIdRequired)
    else if r.leaseEpoch <= 0 then (s, LeaseEpochMismatch)
    else if ActiveIntentAt(s.rows, r.intent, r.key) then (s, DuplicateIntent)
    else if r.key !in s.balances then (s, BalanceRowMissing)
    else if s.balances[r.key].available < r.cash then (s, InsufficientAvailable)
    else if |ActiveRows(s.rows, r.key)| >= MAX_OPEN_RESERVATIONS then (s, ReservationLimitExceeded)
    else
      var moved := MoveToCommitted(s.balances, r.key, r.cash);
      // risk_decisions.id is a primary key
      if r.decision in s.decisions then (s, DuplicateIntent)
      // column types and CHECKs of reservations and execution_permits, and the expiry's text
      else if !Storable(r) then (s, MoneyAuthorityFailed)
      // reservations.id is a primary key; uq_reservations_active_intent spans all accounts
      else if r.reservationId in s.rows || ActiveIntent(s.rows, r.intent) then (s, DuplicateIntent)
      else (State(moved, s.rows[r.reservationId := NewRow(r)], s.decisions + {r.decision}), Ok)
  }

  /** `ReservationManager.consume`. */
  function Consume(s: State, id: Id, filled: int, now: int): (State, Code) {
    if filled <= 0 then (s, InvalidAmount)
    else if id !in s.rows then (s, ReservationNotFound)
    else
      var row := s.rows[id];
      if now > row.expiresAt then (s, PermitExpired)
      else if !row.Live() then (s, ReservationNotActive)
      else if row.consumed + filled > row.amount then (s, OverConsume)
      else
        var newConsumed := row.consumed + filled;
        var status := if newConsumed == row.amount then Consumed else PartiallyConsumed;
        (s.(balances := SpendCommitted(s.balances, row.key, filled),
            rows := s.rows[id := row.(consumed := newConsumed, status := status)]), Ok)
  }

  function Terminal(reason: Reason): Status {
    if reason.ExpiredReason? then Expired else Released
  }

  /** `ReservationManager.release`; `expire` is release with the EXPIRED reason. */
  function Release(s: State, id: Id, reason: Reason): (State, Code) {
    if id !in s.rows then (s, ReservationNotFound)
    else
      var row := s.rows[id];
      if !row.Live() then (s, ReservationNotActive)
      else
        var remaining := row.amount - row.consumed - row.released;
        if remaining < 0 then (s, AccountingInvariantViolated)
        else
          var bs := if remaining > 0 then MoveToAvailable(s.balances, row.key, remaining) else s.balances;
          (s.(balances := bs,
              rows := s.rows[id := row.(released := row.released + remaining, status := Terminal(reason))]), Ok)
  }

  const PUSD := "pUSD"

  /** `applyAttestedCredit`: the attested figure is the new total, never a decrease. */
  function Credit(s: State, account: string, amount: int, sourceLength: nat): (State, Code) {
    if account == "" then (s, CreditAccountMissing)
    else if sourceLength < 8 || sourceLength > 500 then (s, CreditSourceRequired)
    else if amount <= 0 then (s, CreditAmountInvalid)
    else
      var k := Key(account, PUSD);
      if k !in s.balances then (s.(balances := s.balances[k := Balance(amount, 0)]), Ok)
      else
        var b := s.balances[k];
        if amount < b.available + b.committed then (s, CreditWouldDecrease)
        else if amount == b.available + b.committed then (s, Ok)
        else if amount - b.committed < 0 then (s, CreditWouldDecrease)
        else (s.(balances := s.balances[k := Balance(amount - b.committed, b.committed)]), Ok)
  }

  /** `MoneyKernel.release`: moves cash without looking at any reservation row. */
  function KernelRelease(s: State, k: Key, cash: int): State {
    if cash < 0 then s else s.(balances := MoveToAvailable(s.balances, k, cash))
  }

  // ----- runs -----

  datatype Step =
    | DoReserve(r: ReserveRequest)
    | DoConsume(id: Id, filled: int, now: int)
    | DoRelease(id: Id, reason: Reason)
    | DoCredit(account: string, amount: int, sourceLength: nat)
    | RolledBack

  function Apply(s: State, step: Step): State {
    match step
    case DoReserve(r) => Reserve(s, r).0
    case DoConsume(id, filled, now) => Consume(s, id, filled, now).0
    case DoRelease(id, reason) => Release(s, id, reason).0
    case DoCredit(account, amount, n) => Credit(s, account, amount, n).0
    case RolledBack => s
  }

  function Run(s: State, steps: seq<Step>): State
    decreases |steps|
  {
    if steps == [] then s else Run(Apply(s, steps[0]), steps[1..])
  }

  // ----- the coupling invariant -----

  function Remaining(k: Key): Reservation -> int {
    (r: Reservation) => if r.key == k && r.Live() then r.amount - r.consumed - r.released else 0
  }

  function Spent(k: Key): Reservation -> int {
    (r: Reservation) => if r.key == k then r.consumed else 0
  }

  ghost predicate RowOk(r: Reservation) {
    && 0 <= r.consumed && 0 <= r.released && r.consumed + r.released <= r.amount
    && (r.Live() ==> r.released == 0)
    && (r.status.Active? ==> r.consumed == 0)
    && (r.status.PartiallyConsumed? ==> 0 < r.consumed < r.amount)
    && (r.status.Consumed? ==> r.consumed == r.amount)
    && (!r.Live() ==> r.consumed + r.released == r.amount)
  }

  /** Committed cash is exactly what the live reservations still hold. */
  ghost predicate CoupledAt(s: State, k: Key) {
    k in s.balances ==>
      && s.balances[k].available >= 0
      && s.balances[k].committed == Sum(s.rows, Remaining(k))
  }

  ghost predicate RowsOk(s: State) {
    forall id :: id in s.rows ==> RowOk(s.rows[id]) && s.rows[id].key in s.balances
  }

  ghost predicate OneActivePerIntent(rows: map<Id, Reservation>) {
    forall i, j | i in rows && j in rows && rows[i].status.Active? && rows[j].status.Active? ::
      rows[i].intent == rows[j].intent ==> i == j
  }

  predicate WithinLimitAt(rows: map<Id, Reservation>, k: Key) {
    |ActiveRows(rows, k)| <= MAX_OPEN_RESERVATIONS
  }

  ghost predicate WithinOpenLimit(rows: map<Id, Reservation>) {
    forall k :: WithinLimitAt(rows, k)
  }

  ghost predicate Coupled(s: State) {
    && RowsOk(s)
    && (forall k :: CoupledAt(s, k))
    && WithinOpenLimit(s.rows)
    && OneActivePerIntent(s.rows)
  }

  lemma CommittedNonNegative(s: State, k: Key)
    requires Coupled(s) && k in s.balances
    ensures s.balances[k].committed >= 0
  {
    assert CoupledAt(s, k);
    SumNonNegative(s.rows, Remaining(k));
  }

  /** A live row's remainder is covered by its account's committed cash. */
  lemma CommittedCovers(s: State, id: Id)
    requires Coupled(s) && id in s.rows && s.rows[id].Live()
    ensures s.rows[id].key in s.balances
    ensures s.rows[id].amount - s.rows[id].consumed <= s.balances[s.rows[id].key].committed
  {
    var k := s.rows[id].key;
    assert CoupledAt(s, k);
    SumAtLeastTerm(s.rows, id, Remaining(k));
  }

  /** Replacing a row by one that is Active only if it already was keeps both open-row limits. */
  lemma ActivityShrinks(rows: map<Id, Reservation>, id: Id, r: Reservation)
    requires id in rows && !r.status.Active?
    requires OneActivePerIntent(rows) && WithinOpenLimit(rows)
    ensures OneActivePerIntent(rows[id := r]) && WithinOpenLimit(rows[id := r])
  {
    var rows' := rows[id := r];
    forall k ensures WithinLimitAt(rows', k) {
      assert WithinLimitAt(rows, k);
      SubsetCardinality(ActiveRows(rows', k), ActiveRows(rows, k));
    }
  }

  lemma SubsetCardinality<T>(a: set<T>, b: set<T>)
    requires a <= b
    ensures |a| <= |b|
  {
    assert b == a + (b - a);
  }

  /** A new Active row for a fresh intent, below the limit, keeps both open-row limits. */
  lemma ActivityGrows(rows: map<Id, Reservation>, id: Id, r: Reservation)
    requires id !in rows && r.status.Active? && !ActiveIntent(rows, r.intent)
    requires OneActivePerIntent(rows) && WithinOpenLimit(rows)
    requires |ActiveRows(rows, r.key)| < MAX_OPEN_RESERVATIONS
    ensures OneActivePerIntent(rows[id := r]) && WithinOpenLimit(rows[id := r])
  {
    var rows' := rows[id := r];
    forall k ensures WithinLimitAt(rows', k) {
      assert WithinLimitAt(rows, k);
      ActiveRowsAfterInsert(rows, id, r, k);
    }
  }

  lemma ActiveRowsAfterInsert(rows: map<Id, Reservation>, id: Id, r: Reservation, k: Key)
    requires id !in rows && r.status.Active?
    ensures |ActiveRows(rows[id := r], k)| == |ActiveRows(rows, k)| + (if k == r.key then 1 else 0)
  {
    var rows' := rows[id := r];
    var before, after := ActiveRows(rows, k), ActiveRows(rows', k);
    if k == r.key {
      assert after == before + {id};
    } else {
      assert after == before;
    }
  }

  lemma ReserveCoupled(s: State, r: ReserveRequest)
    requires Coupled(s)
    ensures Coupled(Reserve(s, r).0)
  {
    var (s', code) := Reserve(s, r);
    if code.Ok? {
      ActivityGrows(s.rows, r.reservationId, NewRow(r));
      assert RowsOk(s') by { assert RowsOk(s); }
      forall k ensures CoupledAt(s', k) {
        assert CoupledAt(s, k);
        SumPut(s.rows, r.reservationId, NewRow(r), Remaining(k));
      }
    }
  }

  lemma ConsumeCoupled(s: State, id: Id, filled: int, now: int)
    requires Coupled(s)
    ensures Coupled(Consume(s, id, filled, now).0)
  {
    var (s', code) := Consume(s, id, filled, now);
    if code.Ok? {
      CommittedCovers(s, id);
      ActivityShrinks(s.rows, id, s'.rows[id]);
      forall k ensures CoupledAt(s', k) {
        assert CoupledAt(s, k);
        SumPut(s.rows, id, s'.rows[id], Remaining(k));
      }
    }
  }

  lemma ReleaseCoupled(s: State, id: Id, reason: Reason)
    requires Coupled(s)
    ensures Coupled(Release(s, id, reason).0)
  {
    var (s', code) := Release(s, id, reason);
    if code.Ok? {
      CommittedCovers(s, id);
      ActivityShrinks(s.rows, id, s'.rows[id]);
      forall k ensures CoupledAt(s', k) {
        assert CoupledAt(s, k);
        SumPut(s.rows, id, s'.rows[id], Remaining(k));
      }
    }
  }

  /** A brand new key has no rows, so its committed cash starts at zero. */
  lemma {:induction false} NoRowsNoRemainder(rows: map<Id, Reservation>, k: Key)
    requires forall id :: id in rows ==> rows[id].key != k
    ensures Sum(rows, Remaining(k)) == 0 && Sum(rows, Spent(k)) == 0
    decreases |rows|
  {
    if rows != map[] {
      var id :| id in rows;
      SumRemove(rows, id, Remaining(k));
      SumRemove(rows, id, Spent(k));
      NoRowsNoRemainder(rows - {id}, k);
    }
  }

  lemma CreditCoupled(s: State, account: string, amount: int, n: nat)
    requires Coupled(s)
    ensures Coupled(Credit(s, account, amount, n).0)
  {
    var s' := Credit(s, account, amount, n).0;
    var key := Key(account, PUSD);
    forall k ensures CoupledAt(s', k) {
      assert CoupledAt(s, k);
      if k == key && k !in s.balances {
        NoRowsNoRemainder(s.rows, k);
      } else if k == key && k in s.balances {
        CommittedNonNegative(s, k);
      }
    }
  }

  lemma ApplyCoupled(s: State, step: Step)
    requires Coupled(s)
    ensures Coupled(Apply(s, step))
  {
    match step
    case DoReserve(r) => ReserveCoupled(s, r);
    case DoConsume(id, filled, now) => ConsumeCoupled(s, id, filled, now);
    case DoRelease(id, reason) => ReleaseCoupled(s, id, reason);
    case DoCredit(account, amount, n) => CreditCoupled(s, account, amount, n);
    case RolledBack =>
  }

  /** The invariant holds in every state any run can reach. */
  lemma {:induction false} RunCoupled(s: State, steps: seq<Step>)
    requires Coupled(s)
    ensures Coupled(Run(s, steps))
    decreases |steps|
  {
    if steps != [] {
      ApplyCoupled(s, steps[0]);
      RunCoupled(Apply(s, steps[0]), steps[1..]);
    }
  }

  lemma EmptyCoupled()
    ensures Coupled(EMPTY)
  {
    assert WithinOpenLimit(EMPTY.rows) by {
      forall k ensures WithinLimitAt(EMPTY.rows, k) {
        assert ActiveRows(EMPTY.rows, k) == {};
      }
    }
  }

  // ----- what the invariant buys: no guarded update is ever skipped -----

  /** In every reachable state, exactly when a consume reports success does it also spend the cash. */
  lemma ConsumeNeverSkips(steps: seq<Step>, id: Id, filled: int, now: int)
    ensures var s := Run(EMPTY, steps); var (s', code) := Consume(s, id, filled, now);
            if code.Ok? then
              && id in s.rows && s.rows[id].key in s.balances
              && var k := s.rows[id].key; var b := s.balances[k];
              && b.committed >= filled
              && s'.balances == s.balances[k := Balance(b.available, b.committed - filled)]
            else s' == s
  {
    EmptyCoupled();
    RunCoupled(EMPTY, steps);
    var s := Run(EMPTY, steps);
    if Consume(s, id, filled, now).1.Ok? {
      CommittedCovers(s, id);
    }
  }

  /** What a release of a live row does in a coupled state: its whole remainder moves, and the row is settled. */
  lemma ReleaseReturnsRemainder(s: State, id: Id, reason: Reason)
    requires Coupled(s) && id in s.rows && s.rows[id].Live()
    ensures var (s', code) := Release(s, id, reason);
            && code.Ok? && s.rows[id].key in s.balances
            && var k := s.rows[id].key; var b := s.balances[k];
            var rest := s.rows[id].amount - s.rows[id].consumed;
            && b.committed >= rest
            && s'.balances == s.balances[k := Balance(b.available + rest, b.committed - rest)]
            && s'.rows[id].consumed + s'.rows[id].released == s'.rows[id].amount
  {
    CommittedCovers(s, id);
  }

  /** In every reachable state a release of a live row succeeds, returns its whole remainder, and nothing else succeeds. */
  lemma {:induction false} ReleaseNeverSkips(steps: seq<Step>, id: Id, reason: Reason)
    ensures var s := Run(EMPTY, steps); var (s', code) := Release(s, id, reason);
            && code != AccountingInvariantViolated
            && (code.Ok? <==> id in s.rows && s.rows[id].Live())
            && (!code.Ok? ==> s' == s)
            && (code.Ok? ==>
                && s.rows[id].key in s.balances
                && var k := s.rows[id].key; var b := s.balances[k];
                var rest := s.rows[id].amount - s.rows[id].consumed;
                && b.committed >= rest
                && s'.balances == s.balances[k := Balance(b.available + rest, b.committed - rest)]
                && s'.rows[id].consumed + s'.rows[id].released == s'.rows[id].amount)
  {
    EmptyCoupled();
    RunCoupled(EMPTY, steps);
    var s := Run(EMPTY, steps);
    if id in s.rows && s.rows[id].Live() {
      ReleaseReturnsRemainder(s, id, reason);
    }
  }

  // ----- conservation -----

  /** Everything an account has ever been given and not yet lost: cash in hand, cash set aside, cash spent. */
  ghost function Wealth(s: State, k: Key): int {
    (if k in s.balances then s.balances[k].available + s.balances[k].committed else 0)
    + Sum(s.rows, Spent(k))
  }

  function CreditedBy(s: State, step: Step, k: Key): int {
    match step
    case DoCredit(account, amount, n) =>
      if Credit(s, account, amount, n).1.Ok? && k == Key(account, PUSD) then
        amount - (if k in s.balances then s.balances[k].available + s.balances[k].committed else 0)
      else 0
    case _ => 0
  }

  function Credited(s: State, steps: seq<Step>, k: Key): int
    decreases |steps|
  {
    if steps == [] then 0
    else CreditedBy(s, steps[0], k) + Credited(Apply(s, steps[0]), steps[1..], k)
  }

  lemma ReserveConserves(s: State, r: ReserveRequest, k: Key)
    ensures Wealth(Reserve(s, r).0, k) == Wealth(s, k)
  {
    SumPut(s.rows, r.reservationId, NewRow(r), Spent(k));
  }

  lemma ConsumeConserves(s: State, id: Id, filled: int, now: int, k: Key)
    requires Coupled(s)
    ensures Wealth(Consume(s, id, filled, now).0, k) == Wealth(s, k)
  {
    var (s', code) := Consume(s, id, filled, now);
    if code.Ok? {
      CommittedCovers(s, id);
      SumPut(s.rows, id, s'.rows[id], Spent(k));
    }
  }

  lemma ReleaseConserves(s: State, id: Id, reason: Reason, k: Key)
    requires Coupled(s)
    ensures Wealth(Release(s, id, reason).0, k) == Wealth(s, k)
  {
    var (s', code) := Release(s, id, reason);
    if code.Ok? {
      CommittedCovers(s, id);
      SumPut(s.rows, id, s'.rows[id], Spent(k));
    }
  }

  lemma ApplyConserves(s: State, step: Step, k: Key)
    requires Coupled(s)
    ensures Wealth(Apply(s, step), k) == Wealth(s, k) + CreditedBy(s, step, k)
    ensures CreditedBy(s, step, k) >= 0
  {
    match step
    case DoReserve(r) => ReserveConserves(s, r, k);
    case DoConsume(id, filled, now) => ConsumeConserves(s, id, filled, now, k);
    case DoRelease(id, reason) => ReleaseConserves(s, id, reason, k);
    case DoCredit(account, amount, n) =>
    case RolledBack =>
  }

  /** Conservation over whole runs: attested credits are the only inflow, and consumption the only outflow. */
  lemma {:induction false} RunConserves(s: State, steps: seq<Step>, k: Key)
    requires Coupled(s)
    ensures Wealth(Run(s, steps), k) == Wealth(s, k) + Credited(s, steps, k)
    ensures Credited(s, steps, k) >= 0
    decreases |steps|
  {
    if steps != [] {
      ApplyConserves(s, steps[0], k);
      ApplyCoupled(s, steps[0]);
      RunConserves(Apply(s, steps[0]), steps[1..], k);
    }
  }

  /** What every reachable state looks like to an auditor. */
  lemma ReachableBooksBalance(steps: seq<Step>, k: Key)
    ensures var s := Run(EMPTY, steps);
            && Wealth(s, k) == Credited(EMPTY, steps, k)
            && (k in s.balances ==>
                  s.balances[k].available >= 0 && s.balances[k].committed >= 0
                  && s.balances[k].available + s.balances[k].committed <= Credited(EMPTY, steps, k))
            && (forall id :: id in s.rows && !s.rows[id].Live() ==>
                  s.rows[id].consumed + s.rows[id].released == s.rows[id].amount)
  {
    EmptyCoupled();
    RunCoupled(EMPTY, steps);
    RunConserves(EMPTY, steps, k);
    var s := Run(EMPTY, steps);
    if k in s.balances {
      assert CoupledAt(s, k);
      CommittedNonNegative(s, k);
    }
    SumNonNegative(s.rows, Spent(k));
  }

  /** A credit sets the total to the attested figure, never lowers it, and leaves committed cash alone. */
  lemma CreditNeverLowers(s: State, account: string, amount: int, n: nat)
    requires Coupled(s)
    ensures var k := Key(account, PUSD); var (s', code) := Credit(s, account, amount, n);
            && s'.rows == s.rows
            && (forall j :: j != k ==> (j in s'.balances <==> j in s.balances) && (j in s.balances ==> s'.balances[j] == s.balances[j]))
            && (code.Ok? ==> k in s'.balances && s'.balances[k].available + s'.balances[k].committed == amount)
            && (k in s.balances ==>
                  && k in s'.balances
                  && s'.balances[k].committed == s.balances[k].committed
                  && s'.balances[k].available >= s.balances[k].available)
            && (account != "" && 8 <= n <= 500 && k in s.balances ==>
                  (code == CreditWouldDecrease <==> 0 < amount < s.balances[k].available + s.balances[k].committed))
  {
    var k := Key(account, PUSD);
    if k in s.balances {
      assert CoupledAt(s, k);
      CommittedNonNegative(s, k);
    }
  }

  // ----- monotone rows -----

  ghost predicate RowAdvances(r: Reservation, r': Reservation) {
    && r'.key == r.key && r'.amount == r.amount && r'.intent == r.intent && r'.expiresAt == r.expiresAt
    && r.consumed <= r'.consumed && r.released <= r'.released
    && (!r.Live() ==> r' == r)
    && (r.status.PartiallyConsumed? ==> !r'.status.Active?)
  }

  lemma {:induction false} ApplyAdvancesRows(s: State, step: Step, id: Id)
    requires Coupled(s) && id in s.rows
    ensures id in Apply(s, step).rows && RowAdvances(s.rows[id], Apply(s, step).rows[id])
  {
    assert RowOk(s.rows[id]);
    match step
    case DoRelease(rid, reason) => if rid in s.rows { assert RowOk(s.rows[rid]); }
    case _ =>
  }

  /** Rows are never deleted, never move backwards, and a terminal row never changes again. */
  lemma {:induction false} RunAdvancesRows(s: State, steps: seq<Step>, id: Id)
    requires Coupled(s) && id in s.rows
    ensures id in Run(s, steps).rows
    ensures RowAdvances(s.rows[id], Run(s, steps).rows[id])
    decreases |steps|
  {
    if steps != [] {
      var s' := Apply(s, steps[0]);
      ApplyCoupled(s, steps[0]);
      ApplyAdvancesRows(s, steps[0], id);
      RunAdvancesRows(s', steps[1..], id);
    }
  }

  /**
   A reservation that is released or expired is never consumed from again, in no run, whatever the venue still fills:
   its figures stand.
   */
  lemma {:induction false} ReleasedForGood(s: State, id: Id, reason: Reason, steps: seq<Step>)
    requires Coupled(s) && id in s.rows && s.rows[id].Live()
    ensures var s' := Release(s, id, reason).0; var end := Run(s', steps);
            id in end.rows && !end.rows[id].Live() && end.rows[id].consumed == s.rows[id].consumed
  {
    ReleaseReturnsRemainder(s, id, reason);
    ReleaseCoupled(s, id, reason);
    RunAdvancesRows(Release(s, id, reason).0, steps, id);
  }

  /** What one call undoes: releasing a fresh reservation restores every balance, and a second release changes nothing. */
  lemma ReserveThenReleaseRestores(s: State, r: ReserveRequest, reason: Reason, again: Reason)
    requires Reserve(s, r).1.Ok?
    requires Coupled(s)
    ensures var s1 := Reserve(s, r).0; var (s2, code) := Release(s1, r.reservationId, reason);
            && code.Ok?
            && s2.balances == s.balances
            && Release(s2, r.reservationId, again) == (s2, ReservationNotActive)
            && Consume(s2, r.reservationId, 1, r.now) == (s2, ReservationNotActive)
  {
    assert CoupledAt(s, r.key);
    CommittedNonNegative(s, r.key);
  }

  // ----- reserving for an intent again -----

  /** Everything a reservation needs but for its intent to be free. */
  predicate Otherwise(s: State, r: ReserveRequest) {
    && r.policyHash != "" && r.quoteId != "" && r.leaseEpoch > 0
    && r.key in s.balances && s.balances[r.key].available >= r.cash
    && |ActiveRows(s.rows, r.key)| < MAX_OPEN_RESERVATIONS
    && r.decision !in s.decisions && r.reservationId !in s.rows
    && Storable(r)
  }

  /** The reservation is granted exactly when all else is in order and no row of its intent, of any account, is ACTIVE. */
  lemma ReservedIff(s: State, r: ReserveRequest)
    ensures Reserve(s, r).1.Ok? <==> Otherwise(s, r) && !ActiveIntent(s.rows, r.intent)
    ensures Otherwise(s, r) ==> (Reserve(s, r).1 == DuplicateIntent <==> ActiveIntent(s.rows, r.intent))
  {}

  /** What a request must bring and find, figure by figure. */
  ghost predicate Reservable(s: State, r: ReserveRequest) {
    && r.policyHash != "" && r.quoteId != "" && r.leaseEpoch > 0
    && r.key in s.balances && s.balances[r.key].available >= r.cash
    && |set id | id in s.rows && s.rows[id].key == r.key && s.rows[id].status == Active| < 16
    && r.decision !in s.decisions && r.reservationId !in s.rows
    && 0 <= r.cash < 10_000_000_000 && 0 <= r.maxQty < 10_000_000_000
    && -8_640_000_000_000_000 <= r.now && r.now + 60_000 <= 8_640_000_000_000_000
    && (forall id :: id in s.rows && s.rows[id].intent == r.intent ==> s.rows[id].status != Active)
  }

  /** What a refusal says is so. */
  ghost predicate NotReservedFor(code: Code, s: State, r: ReserveRequest) {
    match code
    case PolicyHashRequired => r.policyHash == ""
    case QuoteIdRequired => r.quoteId == ""
    case LeaseEpochMismatch => r.leaseEpoch <= 0
    case BalanceRowMissing => r.key !in s.balances
    case InsufficientAvailable => r.key in s.balances && s.balances[r.key].available < r.cash
    case ReservationLimitExceeded => |set id | id in s.rows && s.rows[id].key == r.key && s.rows[id].status == Active| >= 16
    case DuplicateIntent =>
      r.decision in s.decisions || r.reservationId in s.rows
      || exists id :: id in s.rows && s.rows[id].intent == r.intent && s.rows[id].status == Active
    case MoneyAuthorityFailed =>
      !(0 <= r.cash < 10_000_000_000) || !(0 <= r.maxQty < 10_000_000_000)
      || r.now < -8_640_000_000_000_000 || r.now + 60_000 > 8_640_000_000_000_000
    case _ => false
  }

  /**
   What a reservation leaves: the cash moved from available to committed, a row for exactly that cash and that intent,
   decision and permit, to last a minute, and the decision on record; or nothing at all, for a reason that is so.
   */
  ghost predicate ReserveLeaves(s: State, r: ReserveRequest, s': State, code: Code) {
    && (code == Ok <==> Reservable(s, r))
    && (code == Ok ==>
          && s'.balances == s.balances[r.key := Balance(s.balances[r.key].available - r.cash, s.balances[r.key].committed + r.cash)]
          && s'.rows == s.rows[r.reservationId :=
               Reservation(r.key, r.intent, r.decision, r.permitId, r.cash, 0, 0, Active, r.now + 60_000)]
          && s'.decisions == s.decisions + {r.decision})
    && (code != Ok ==> s' == s && NotReservedFor(code, s, r))
  }

  lemma {:induction false} ReservesSo(s: State, r: ReserveRequest)
    ensures ReserveLeaves(s, r, Reserve(s, r).0, Reserve(s, r).1)
  {
    ReservedIff(s, r);
    assert ActiveRows(s.rows, r.key) == set id | id in s.rows && s.rows[id].key == r.key && s.rows[id].status == Active;
  }

  /**
   A second reservation of an intent is refused as a duplicate exactly while the first one's row is ACTIVE:
   consuming a part of it is enough for a second one to be granted.
   */
  lemma SecondReservationRefusedIff(s: State, id: Id, r: ReserveRequest)
    requires Otherwise(s, r)
    requires id in s.rows && s.rows[id].intent == r.intent
    requires forall other :: other in s.rows && s.rows[other].intent == r.intent ==> other == id
    ensures Reserve(s, r).1 == DuplicateIntent <==> s.rows[id].status.Active?
    ensures Reserve(s, r).1.Ok? <==> !s.rows[id].status.Active?
  {
    ReservedIff(s, r);
  }

  ghost predicate TwoLiveRows(s: State, intent: Id) {
    exists i, j :: i in s.rows && j in s.rows && i != j
      && s.rows[i].intent == s.rows[j].intent == intent && s.rows[i].Live() && s.rows[j].Live()
  }

  /** A reservation of 2 out of 4, and one unit of it consumed. */
  lemma {:induction false} PartlyConsumed(r: ReserveRequest) returns (s: State)
    requires r.key == Key("a", PUSD) && r.cash == 2 && r.maxQty == 2 && r.leaseEpoch == 1
    requires r.policyHash != "" && r.quoteId != "" && r.now == 0
    ensures s == Apply(Apply(Apply(EMPTY, DoCredit("a", 4, 8)), DoReserve(r)), DoConsume(r.reservationId, 1, r.now))
    ensures s.balances == map[r.key := Balance(2, 1)] && s.decisions == {r.decision}
    ensures s.rows == map[r.reservationId := NewRow(r).(consumed := 1, status := PartiallyConsumed)]
  {
    var s1 := Apply(EMPTY, DoCredit("a", 4, 8));
    assert ActiveRows(s1.rows, r.key) == {};
    ReservedIff(s1, r);
    s := Apply(Apply(s1, DoReserve(r)), DoConsume(r.reservationId, 1, r.now));
  }

  lemma {:induction false} ReservedAgain(s: State, first: Id, r: ReserveRequest)
    requires s.rows.Keys == {first} && first != r.reservationId
    requires s.rows[first].status.PartiallyConsumed? && s.rows[first].intent == r.intent
    requires Otherwise(s, r)
    ensures TwoLiveRows(Apply(s, DoReserve(r)), r.intent)
  {
    ReservedIff(s, r);
    var s' := Apply(s, DoReserve(r));
    assert s'.rows[first] == s.rows[first] && s'.rows[r.reservationId] == NewRow(r);
  }

  /** For every intent there is a run of four transactions that leaves two live reservations of it. */
  lemma {:induction false} IntentReservedTwice(intent: Id)
    ensures exists steps :: TwoLiveRows(Run(EMPTY, steps), intent)
  {
    var first := ReserveRequest(Key("a", PUSD), 2, "d1", intent, 1, 0, 2, "hash", "quote", "r1", "p1");
    var again := first.(decision := "d2", reservationId := "r2", permitId := "p2");
    assert "d1"[1] != "d2"[1] && "r1"[1] != "r2"[1];
    var s := PartlyConsumed(first);
    assert ActiveRows(s.rows, first.key) == {};
    ReservedAgain(s, "r1", again);
    RunFour(EMPTY, DoCredit("a", 4, 8), DoReserve(first), DoConsume("r1", 1, 0), DoReserve(again));
  }

  lemma {:induction false} RunFour(s: State, a: Step, b: Step, c: Step, d: Step)
    ensures Run(s, [a, b, c, d]) == Apply(Apply(Apply(Apply(s, a), b), c), d)
  {
    assert [a, b, c, d] == [a, b] + [c, d];
    RunThen(s, [a, b], [c, d]);
    RunTwo(s, a, b);
    RunTwo(Apply(Apply(s, a), b), c, d);
  }

  // ----- how many reservations can be live -----

  function LiveRows(rows: map<Id, Reservation>, k: Key): set<Id> { set id | id in rows && rows[id].key == k && rows[id].Live() }

  /** An id told apart by its length. */
  function Tally(i: nat): (id: Id)
    ensures |id| == i
  {
    seq(i, _ => 'x')
  }

  function Round(k: Key, i: nat): ReserveRequest {
    ReserveRequest(k, 2, Tally(i), Tally(i), 1, 0, 2, Tally(1), Tally(1), Tally(i), Tally(i))
  }

  /** After `i` rounds of reserving 2 and consuming 1. */
  ghost predicate Rounds(s: State, k: Key, i: nat, left: nat) {
    && k in s.balances && s.balances[k] == Balance(left, i) && |s.rows| == i
    && (forall id :: id in s.rows ==> |id| < i && s.rows[id].key == k && s.rows[id].status.PartiallyConsumed?)
    && (forall d :: d in s.decisions ==> |d| < i)
  }

  lemma {:induction false} RoundReserves(s: State, k: Key, i: nat, left: nat)
    requires Rounds(s, k, i, left) && left >= 2
    ensures var r := Round(k, i);
            && Tally(i) !in s.rows
            && Reserve(s, r) == (State(s.balances[k := Balance(left - 2, i + 2)], s.rows[Tally(i) := NewRow(r)], s.decisions + {Tally(i)}), Ok)
  {
    var r := Round(k, i);
    assert ActiveRows(s.rows, k) == {};
    assert Otherwise(s, r);
    ReservedIff(s, r);
  }

  /** What a round makes of the state. */
  function Rounded(s: State, k: Key, i: nat, left: nat): State {
    State(s.balances[k := Balance(left - 2, i + 1)],
          s.rows[Tally(i) := NewRow(Round(k, i)).(consumed := 1, status := PartiallyConsumed)], s.decisions + {Tally(i)})
  }

  lemma {:induction false} RoundConsumes(s: State, k: Key, i: nat, left: nat)
    requires left >= 2
    ensures var s1 := State(s.balances[k := Balance(left - 2, i + 2)], s.rows[Tally(i) := NewRow(Round(k, i))], s.decisions + {Tally(i)});
            Consume(s1, Tally(i), 1, 0).0 == Rounded(s, k, i, left)
  {}

  lemma {:induction false} RoundedRounds(s: State, k: Key, i: nat, left: nat)
    requires Rounds(s, k, i, left) && left >= 2 && Tally(i) !in s.rows
    ensures Rounds(Rounded(s, k, i, left), k, i + 1, left - 2)
  {
    var s' := Rounded(s, k, i, left);
    assert s'.rows.Keys == s.rows.Keys + {Tally(i)};
    assert |s'.rows| == |s'.rows.Keys| == i + 1;
  }

  function RoundSteps(k: Key, i: nat): seq<Step> { [DoReserve(Round(k, i)), DoConsume(Tally(i), 1, 0)] }

  lemma {:induction false} OneRound(s: State, k: Key, i: nat, left: nat)
    requires Rounds(s, k, i, left) && left >= 2
    ensures Run(s, RoundSteps(k, i)) == Rounded(s, k, i, left) && Rounds(Rounded(s, k, i, left), k, i + 1, left - 2)
  {
    RoundReserves(s, k, i, left);
    RoundConsumes(s, k, i, left);
    RoundedRounds(s, k, i, left);
    RunTwo(s, DoReserve(Round(k, i)), DoConsume(Tally(i), 1, 0));
  }

  lemma {:induction false} RunThen(s: State, first: seq<Step>, second: seq<Step>)
    ensures Run(s, first + second) == Run(Run(s, first), second)
    decreases |first|
  {
    if first == [] {
      assert first + second == second;
    } else {
      assert (first + second)[1..] == first[1..] + second;
      RunThen(Apply(s, first[0]), first[1..], second);
    }
  }

  lemma {:induction false} RunOne(s: State, a: Step)
    ensures Run(s, [a]) == Apply(s, a)
  {
    assert [a][1..] == [];
    assert Run(Apply(s, a), []) == Apply(s, a);
  }

  lemma {:induction false} RunTwo(s: State, a: Step, b: Step)
    ensures Run(s, [a, b]) == Apply(Apply(s, a), b)
  {
    assert [a, b] == [a] + [b];
    RunThen(s, [a], [b]);
    RunOne(s, a);
    RunOne(Apply(s, a), b);
  }

  lemma {:induction false} RunRounds(s: State, k: Key, i: nat, n: nat, left: nat) returns (steps: seq<Step>)
    requires i <= n && Rounds(s, k, i, left) && left >= 2 * (n - i)
    ensures exists left': nat :: Rounds(Run(s, steps), k, n, left')
    decreases n - i
  {
    if i == n {
      steps := [];
      assert Rounds(Run(s, steps), k, n, left);
    } else {
      OneRound(s, k, i, left);
      var more := RunRounds(Rounded(s, k, i, left), k, i + 1, n, left - 2);
      steps := RoundSteps(k, i) + more;
      RunThen(s, RoundSteps(k, i), more);
    }
  }

  /** The limit on open reservations counts ACTIVE rows only: any number of rows of an account can be live at once. */
  lemma {:induction false} AnyNumberLive(account: string, n: nat)
    requires account != ""
    ensures exists steps :: |LiveRows(Run(EMPTY, steps).rows, Key(account, PUSD))| == n
  {
    var k, credit := Key(account, PUSD), DoCredit(account, 2 * n + 1, 8);
    var s := Apply(EMPTY, credit);
    RunOne(EMPTY, credit);
    var steps := RunRounds(s, k, 0, n, 2 * n + 1);
    RunThen(EMPTY, [credit], steps);
    assert LiveRows(Run(s, steps).rows, k) == Run(s, steps).rows.Keys;
    assert |LiveRows(Run(EMPTY, [credit] + steps).rows, k)| == n;
  }

  // ----- the kernel's row-blind release -----

  /**
   `MoneyKernel.release` moves cash without touching a row. It keeps the coupling exactly when
   it moves nothing: a negative or zero amount, a missing balance row, or more than is committed.
   */
  lemma KernelReleaseKeepsCouplingIff(s: State, k: Key, cash: int)
    requires Coupled(s)
    ensures Coupled(KernelRelease(s, k, cash))
            <==> cash <= 0 || k !in s.balances || s.balances[k].committed < cash
  {
    var s' := KernelRelease(s, k, cash);
    assert CoupledAt(s, k);
    if cash <= 0 || k !in s.balances || s.balances[k].committed < cash {
      assert s'.balances == s.balances;
      forall j ensures CoupledAt(s', j) { assert CoupledAt(s, j); }
      assert Coupled(s');
    } else {
      assert !CoupledAt(s', k);
    }
  }

  /**
   The damage a row-blind release can do: with one live reservation released through the kernel,
   a later consume of that reservation still reports success but its guarded update is skipped,
   so the row says the cash was spent while the account still has all of it.
   */
  lemma KernelReleaseLetsAConsumeSkip(s: State, id: Id, now: int)
    requires Coupled(s) && id in s.rows && s.rows[id].status.Active? && s.rows[id].amount > 0
    requires now <= s.rows[id].expiresAt
    requires s.balances[s.rows[id].key].committed == s.rows[id].amount
    ensures var k := s.rows[id].key; var cash := s.rows[id].amount;
            var (s', code) := Consume(KernelRelease(s, k, cash), id, cash, now);
            && code.Ok? && s'.rows[id].status.Consumed?
            && s'.balances[k].available + s'.balances[k].committed
               == s.balances[k].available + s.balances[k].committed
            && Wealth(s', k) == Wealth(s, k) + cash
  {
    var k := s.rows[id].key;
    var cash := s.rows[id].amount;
    assert CoupledAt(s, k);
    var s' := Consume(KernelRelease(s, k, cash), id, cash, now).0;
    SumPut(s.rows, id, s'.rows[id], Spent(k));
  }
}
