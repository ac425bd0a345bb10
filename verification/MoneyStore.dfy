/**
 The database-backed services that move money, in the form the program has them: objects
 whose methods check, then update balance and reservation rows in place. Each method is one
 transaction; it is proved against the corresponding function of `Money`, and keeps the
 coupling invariant.
 */
module MoneyStore {
  import opened MapSums
  import opened Money

  /** What an account has, set aside or not. */
  function Holdings(balances: map<Key, Balance>, k: Key): int {
    if k in balances then balances[k].available + balances[k].committed else 0
  }

  /** No account but `k` is touched, and none appears or disappears. */
  ghost predicate OnlyAt(k: Key, before: map<Key, Balance>, after: map<Key, Balance>) {
    after.Keys == before.Keys && forall j :: j in before && j != k ==> after[j] == before[j]
  }

  predicate Backed(rows: map<Id, Reservation>, id: Id) {
    id in rows && (rows[id].status == Active || rows[id].status == PartiallyConsumed)
  }

  /** One account's available and committed cash have moved by this much, and nothing else has. */
  predicate Shifted(bs: map<Key, Balance>, k: Key, available: int, committed: int, bs': map<Key, Balance>) {
    k in bs && bs' == bs[k := Balance(bs[k].available + available, bs[k].committed + committed)]
  }

  class Store {
    var balances: map<Key, Balance>
    var rows: map<Id, Reservation>
    var decisions: set<Id>

    function View(): State reads this { State(balances, rows, decisions) }

    ghost predicate Valid() reads this { Coupled(View()) }

    constructor ()
      ensures Valid() && View() == EMPTY
    {
      balances, rows, decisions := map[], map[], {};
      EmptyCoupled();
    }

    /**
     `PgBalanceStore.reserveFunds`: false is the exception for zero updated rows. Cash set aside stays in
     the account, is never more than was available, and releasing the same amount undoes the move.
     */
    method ReserveFunds(k: Key, n: int) returns (ok: bool)
      modifies this`balances
      ensures ok <==> k in old(balances) && old(balances)[k].available >= n
      ensures OnlyAt(k, old(balances), balances) && (!ok ==> balances == old(balances))
      ensures Holdings(balances, k) == Holdings(old(balances), k)
      ensures ok ==> balances[k].committed == old(balances)[k].committed + n && balances[k].available >= 0
      ensures ok && old(balances)[k].committed >= 0 ==> MoveToAvailable(balances, k, n) == old(balances)
      ensures balances == MoveToCommitted(old(balances), k, n)
    {
      ok := k in balances && balances[k].available >= n;
      balances := MoveToCommitted(balances, k, n);
    }

    /** `PgBalanceStore.releaseFunds`: the inverse move, with the same guard on the committed side. */
    method ReleaseFunds(k: Key, n: int) returns (ok: bool)
      modifies this`balances
      ensures ok <==> k in old(balances) && old(balances)[k].committed >= n
      ensures OnlyAt(k, old(balances), balances) && (!ok ==> balances == old(balances))
      ensures Holdings(balances, k) == Holdings(old(balances), k)
      ensures ok ==> balances[k].available == old(balances)[k].available + n && balances[k].committed >= 0
      ensures ok && old(balances)[k].available >= 0 ==> MoveToCommitted(balances, k, n) == old(balances)
      ensures balances == MoveToAvailable(old(balances), k, n)
    {
      ok := k in balances && balances[k].committed >= n;
      balances := MoveToAvailable(balances, k, n);
    }

    /** `PgBalanceStore.consumeFunds`: the account loses exactly `n`, all of it from what was set aside. */
    method ConsumeFunds(k: Key, n: int) returns (ok: bool)
      modifies this`balances
      ensures ok <==> k in old(balances) && old(balances)[k].committed >= n
      ensures OnlyAt(k, old(balances), balances) && (!ok ==> balances == old(balances))
      ensures Holdings(balances, k) == Holdings(old(balances), k) - if ok then n else 0
      ensures ok ==> balances[k].available == old(balances)[k].available && balances[k].committed >= 0
      ensures balances == SpendCommitted(old(balances), k, n)
    {
      ok := k in balances && balances[k].committed >= n;
      balances := SpendCommitted(balances, k, n);
    }

    /** `PgMoneyAuthority.reserve`. Every early return leaves the tables as they were. */
    method Reserve(r: ReserveRequest) returns (code: Code)
      modifies this
      ensures old(Valid()) ==> Valid()
      ensures (View(), code) == Money.Reserve(old(View()), r)
      ensures ReserveLeaves(old(View()), r, View(), code)
    {
      ReservesSo(View(), r);
      if Valid() { ReserveCoupled(View(), r); }
      if r.policyHash == "" { return PolicyHashRequired; }
      if r.quoteId == "" { return QuoteIdRequired; }
      if r.leaseEpoch <= 0 { return LeaseEpochMismatch; }
      // BEGIN
      if exists id :: id in rows && rows[id].intent == r.intent && rows[id].key == r.key && rows[id].status.Active? {
        return DuplicateIntent;
      }
      if r.key !in balances { return BalanceRowMissing; }
      if balances[r.key].available < r.cash { return InsufficientAvailable; }
      if |ActiveRows(rows, r.key)| >= MAX_OPEN_RESERVATIONS { return ReservationLimitExceeded; }
      var rollback := balances;
      balances := MoveToCommitted(balances, r.key, r.cash);
      if r.decision in decisions {
        balances := rollback;
        return DuplicateIntent;
      }
      if !Storable(r) {
        balances := rollback;
        return MoneyAuthorityFailed;
      }
      if r.reservationId in rows || ActiveIntent(rows, r.intent) {
        balances := rollback;
        return DuplicateIntent;
      }
      decisions := decisions + {r.decision};
      rows := rows[r.reservationId := NewRow(r)];
      return Ok;
    }

    /** `ReservationManager.consume`. */
    method Consume(id: Id, filled: int, now: int) returns (code: Code)
      modifies this
      ensures old(Valid()) ==> Valid()
      ensures (View(), code) == Money.Consume(old(View()), id, filled, now)
      ensures code == Ok <==> filled > 0 && Backed(old(rows), id) && now <= old(rows)[id].expiresAt
                              && old(rows)[id].consumed + filled <= old(rows)[id].amount
      ensures code != Ok ==> View() == old(View())
      ensures code == Ok ==>
                && rows == old(rows)[id := old(rows)[id].(
                     consumed := old(rows)[id].consumed + filled,
                     status := if old(rows)[id].consumed + filled == old(rows)[id].amount then Consumed else PartiallyConsumed)]
                && (old(Valid()) ==> Shifted(old(balances), old(rows)[id].key, 0, -filled, balances))
    {
      if Valid() {
        ConsumeCoupled(View(), id, filled, now);
        if Backed(rows, id) { CommittedCovers(View(), id); }
      }
      if filled <= 0 { return InvalidAmount; }
      if id !in rows { return ReservationNotFound; }
      var row := rows[id];
      if now > row.expiresAt { return PermitExpired; }
      if !row.status.Active? && !row.status.PartiallyConsumed? { return ReservationNotActive; }
      var newConsumed := row.consumed + filled;
      if newConsumed > row.amount { return OverConsume; }
      var fully := newConsumed == row.amount;
      balances := SpendCommitted(balances, row.key, filled);
      rows := rows[id := row.(consumed := newConsumed,
                              status := if fully then Consumed else PartiallyConsumed)];
      return Ok;
    }

    /** `ReservationManager.release`, and `expire` when the reason says so. */
    method Release(id: Id, reason: Reason) returns (code: Code)
      modifies this
      ensures old(Valid()) ==> Valid()
      ensures (View(), code) == Money.Release(old(View()), id, reason)
      ensures old(Valid()) ==> (code == Ok <==> Backed(old(rows), id))
      ensures code != Ok ==> View() == old(View())
      ensures code == Ok ==>
                && Backed(old(rows), id)
                && rows == old(rows)[id := old(rows)[id].(
                     released := old(rows)[id].amount - old(rows)[id].consumed,
                     status := if reason == ExpiredReason then Expired else Released)]
                && var rest := old(rows)[id].amount - old(rows)[id].consumed;
                   (old(Valid()) ==> Shifted(old(balances), old(rows)[id].key, rest, -rest, balances))
    {
      if Valid() {
        ReleaseCoupled(View(), id, reason);
        if Backed(rows, id) { CommittedCovers(View(), id); }
      }
      if id !in rows { return ReservationNotFound; }
      var row := rows[id];
      if !row.status.Active? && !row.status.PartiallyConsumed? { return ReservationNotActive; }
      var remaining := row.amount - row.consumed - row.released;
      if remaining < 0 { return AccountingInvariantViolated; }
      var newReleased := row.released + remaining;
      if remaining > 0 {
        balances := MoveToAvailable(balances, row.key, remaining);
      }
      rows := rows[id := row.(released := newReleased, status := Terminal(reason))];
      return Ok;
    }

    /** `applyAttestedCredit`, for an amount and a source note already parsed and trimmed. */
    method Credit(account: string, amount: int, sourceLength: nat) returns (code: Code)
      modifies this
      ensures old(Valid()) ==> Valid()
      ensures (View(), code) == Money.Credit(old(View()), account, amount, sourceLength)
    {
      if Valid() { CreditCoupled(View(), account, amount, sourceLength); }
      if account == "" { return CreditAccountMissing; }
      if sourceLength < 8 || sourceLength > 500 { return CreditSourceRequired; }
      if amount <= 0 { return CreditAmountInvalid; }
      var k := Key(account, PUSD);
      if k !in balances {
        balances := balances[k := Balance(amount, 0)];
        return Ok;
      }
      var b := balances[k];
      var total := b.available + b.committed;
      if amount < total { return CreditWouldDecrease; }
      if amount == total { return Ok; }
      var nextAvailable := amount - b.committed;
      if nextAvailable < 0 { return CreditWouldDecrease; }
      balances := balances[k := Balance(nextAvailable, b.committed)];
      return Ok;
    }

    /**
     `ReservationManager.expireOverdue`: select the overdue rows, then expire them one by one, in
     whatever order the query returned them. Every overdue row ends EXPIRED with nothing left
     committed, every other row is untouched, and the count is the number of overdue rows.
     */
    method ExpireOverdue(now: int) returns (expired: nat)
      requires Valid()
      modifies this
      ensures Valid() && decisions == old(decisions)
      ensures expired == |Overdue(old(rows), now)| && Overdue(rows, now) == {}
      ensures rows == Swept(old(rows), now)
      ensures FullySwept(balances, old(View()), now)
    {
      var todo := Overdue(rows, now);
      ghost var s0 := View();
      expired := 0;
      while todo != {}
        invariant Valid() && Sweeping(View(), s0, todo, expired, now)
        decreases todo
      {
        var id :| id in todo;
        SweepStep(View(), s0, todo, expired, id, now);
        var code := Release(id, ExpiredReason);
        if code.Ok? { expired := expired + 1; }
        todo := todo - {id};
      }
      SweepDone(View(), s0, expired, now);
    }
  }

  function Overdue(rows: map<Id, Reservation>, now: int): set<Id> {
    set id | id in rows && rows[id].Live() && rows[id].expiresAt <= now
  }

  function OverdueRemaining(k: Key, now: int): Reservation -> int {
    (r: Reservation) => if r.key == k && r.Live() && r.expiresAt <= now then r.amount - r.consumed - r.released else 0
  }

  /** The rows as they are once every overdue one has been expired. */
  function Swept(rows: map<Id, Reservation>, now: int): map<Id, Reservation> {
    map id | id in rows ::
      if rows[id].Live() && rows[id].expiresAt <= now
      then rows[id].(released := rows[id].amount - rows[id].consumed, status := Expired)
      else rows[id]
  }

  /**
   Whether an order at the venue is still backed after a sweep, wherever the order stands: exactly when the time
   limit of its reservation, a minute from the grant, has not come.
   */
  lemma {:induction false} SweptBacksIff(s: State, id: Id, now: int)
    requires Coupled(s) && id in s.rows && s.rows[id].Live()
    ensures Swept(s.rows, now)[id].Live() <==> now < s.rows[id].expiresAt
    ensures var k, r := s.rows[id].key, s.rows[id];
            Remaining(k)(Swept(s.rows, now)[id]) == if now < r.expiresAt then r.amount - r.consumed else 0
  {
    assert RowOk(s.rows[id]);
  }

  /** How far a sweep that started in `s0` has come: what left committed has reached available. */
  ghost predicate SweptBalances(s: State, s0: State, now: int) {
    && s.balances.Keys == s0.balances.Keys
    && forall k :: k in s.balances ==>
         var moved := Sum(s0.rows, OverdueRemaining(k, now)) - Sum(s.rows, OverdueRemaining(k, now));
         s.balances[k] == Balance(s0.balances[k].available + moved, s0.balances[k].committed - moved)
  }

  ghost predicate FullySwept(balances: map<Key, Balance>, s0: State, now: int) {
    && balances.Keys == s0.balances.Keys
    && forall k :: k in balances ==>
         var moved := Sum(s0.rows, OverdueRemaining(k, now));
         balances[k] == Balance(s0.balances[k].available + moved, s0.balances[k].committed - moved)
  }

  lemma SweepRows(rows: map<Id, Reservation>, id: Id, r: Reservation, now: int)
    requires id in Overdue(rows, now)
    requires r == rows[id].(released := rows[id].amount - rows[id].consumed, status := Expired)
    ensures Swept(rows[id := r], now) == Swept(rows, now)
    ensures Overdue(rows[id := r], now) == Overdue(rows, now) - {id}
  {}

  lemma SweepSum(rows: map<Id, Reservation>, id: Id, r: Reservation, k: Key, now: int)
    requires id in Overdue(rows, now) && !r.Live() && rows[id].released == 0
    ensures Sum(rows[id := r], OverdueRemaining(k, now)) == Sum(rows, OverdueRemaining(k, now))
              - (if k == rows[id].key then rows[id].amount - rows[id].consumed else 0)
  {
    SumPut(rows, id, r, OverdueRemaining(k, now));
  }

  lemma SweepStepRows(s: State, id: Id, now: int)
    requires id in Overdue(s.rows, now) && RowOk(s.rows[id])
    ensures var (s', code) := Money.Release(s, id, ExpiredReason);
            && code.Ok? && s'.decisions == s.decisions
            && Swept(s'.rows, now) == Swept(s.rows, now)
            && Overdue(s'.rows, now) == Overdue(s.rows, now) - {id}
  {
    var s' := Money.Release(s, id, ExpiredReason).0;
    SweepRows(s.rows, id, s'.rows[id], now);
  }

  lemma SweepStepBalances(s: State, s0: State, id: Id, now: int)
    requires SweptBalances(s, s0, now)
    requires id in Overdue(s.rows, now) && RowOk(s.rows[id]) && s.rows[id].key in s.balances
    requires s.rows[id].amount - s.rows[id].consumed <= s.balances[s.rows[id].key].committed
    ensures SweptBalances(Money.Release(s, id, ExpiredReason).0, s0, now)
  {
    var s' := Money.Release(s, id, ExpiredReason).0;
    var row, row' := s.rows[id], s'.rows[id];
    assert s'.rows == s.rows[id := row'];
    forall k | k in s'.balances
      ensures var moved := Sum(s0.rows, OverdueRemaining(k, now)) - Sum(s'.rows, OverdueRemaining(k, now));
              s'.balances[k] == Balance(s0.balances[k].available + moved, s0.balances[k].committed - moved)
    {
      SweepSum(s.rows, id, row', k, now);
    }
  }

  /** What the sweep's loop keeps: the rows still to do, the count so far, and the balances so far. */
  ghost predicate Sweeping(s: State, s0: State, todo: set<Id>, expired: nat, now: int) {
    && s.decisions == s0.decisions
    && todo == Overdue(s.rows, now)
    && expired + |todo| == |Overdue(s0.rows, now)|
    && Swept(s.rows, now) == Swept(s0.rows, now)
    && SweptBalances(s, s0, now)
  }

  lemma SweepStep(s: State, s0: State, todo: set<Id>, expired: nat, id: Id, now: int)
    requires Coupled(s) && Sweeping(s, s0, todo, expired, now) && id in todo
    ensures Money.Release(s, id, ExpiredReason).1.Ok?
    ensures Sweeping(Money.Release(s, id, ExpiredReason).0, s0, todo - {id}, expired + 1, now)
  {
    CommittedCovers(s, id);
    SweepStepRows(s, id, now);
    SweepStepBalances(s, s0, id, now);
  }

  lemma SweepDone(s: State, s0: State, expired: nat, now: int)
    requires Sweeping(s, s0, {}, expired, now)
    ensures s.rows == Swept(s0.rows, now) && expired == |Overdue(s0.rows, now)|
    ensures FullySwept(s.balances, s0, now)
  {
    forall id | id in s.rows ensures !(s.rows[id].Live() && s.rows[id].expiresAt <= now) {
      assert id !in Overdue(s.rows, now);
    }
    assert Swept(s.rows, now) == s.rows;
    forall k | k in s.balances ensures Sum(s.rows, OverdueRemaining(k, now)) == 0 {
      SumZero(s.rows, OverdueRemaining(k, now));
    }
  }

  lemma SumZero<K, V>(m: map<K, V>, f: V -> int)
    requires forall k :: k in m ==> f(m[k]) == 0
    ensures Sum(m, f) == 0
    decreases |m|
  {
    if m != map[] {
      var k :| k in m;
      SumRemove(m, k, f);
      SumZero(m - {k}, f);
    }
  }
}
