/**
 The projection's second write. Beside its own table the engine adds each event's effect to `balance_entries`,
 the live money table the reservations move, and a rebuild truncates both. When that leaves live money coupled
 to the reservation rows.
 */
module ProjectionWrites {
  import opened Wrappers
  import opened MapSums
  import opened SeqSums
  import opened Money
  import opened Projection

  /** The upsert into `balance_entries`: made only for an event that moves available cash. */
  function Written(bs: map<Key, Balance>, e: Event): map<Key, Balance> {
    match Project(e)
    case Moves(Some(account), Some(asset), da, dc) =>
      if da == 0 then bs
      else
        var k := Key(account, asset);
        var b := if k in bs then bs[k] else Balance(0, 0);
        bs[k := Balance(b.available + da, b.committed + dc)]
    case _ => bs
  }

  function WrittenAll(bs: map<Key, Balance>, events: seq<Event>): map<Key, Balance>
    decreases |events|
  {
    if events == [] then bs else WrittenAll(Written(bs, events[0]), events[1..])
  }

  /** What one event writes into one column of a live balance. */
  function WriteOf(k: Key, side: Side): Event -> int {
    (e: Event) => if Delta(e, k, Available) == 0 then 0 else Delta(e, k, side)
  }

  function NetWrites(events: seq<Event>, k: Key, side: Side): int { Total(events, WriteOf(k, side)) }

  function LiveIn(bs: map<Key, Balance>, k: Key, side: Side): int {
    if k !in bs then 0 else if side.Available? then bs[k].available else bs[k].committed
  }

  lemma {:induction false} WrittenAdds(bs: map<Key, Balance>, e: Event, k: Key, side: Side)
    ensures LiveIn(Written(bs, e), k, side) == LiveIn(bs, k, side) + WriteOf(k, side)(e)
    ensures k in bs ==> k in Written(bs, e)
  {}

  lemma {:induction false} WrittenAllAdds(bs: map<Key, Balance>, events: seq<Event>, k: Key, side: Side)
    ensures LiveIn(WrittenAll(bs, events), k, side) == LiveIn(bs, k, side) + NetWrites(events, k, side)
    ensures k in bs ==> k in WrittenAll(bs, events)
    decreases |events|
  {
    if events != [] {
      WrittenAdds(bs, events[0], k, side);
      WrittenAllAdds(Written(bs, events[0]), events[1..], k, side);
    }
  }

  /** One account stays in order: its available cash not below nothing, its committed cash as it was. */
  predicate Harmless(s: State, events: seq<Event>, k: Key) {
    LiveIn(s.balances, k, Available) + NetWrites(events, k, Available) >= 0 && NetWrites(events, k, Committed) == 0
  }

  lemma {:induction false} CommittedIs(s: State, k: Key)
    requires Coupled(s)
    ensures LiveIn(s.balances, k, Committed) == Sum(s.rows, Remaining(k)) && LiveIn(s.balances, k, Available) >= 0
  {
    assert CoupledAt(s, k);
    if k !in s.balances { NoRowsNoRemainder(s.rows, k); }
  }

  lemma {:induction false} WrittenCoupledAt(s: State, events: seq<Event>, k: Key)
    requires Coupled(s)
    ensures CoupledAt(s.(balances := WrittenAll(s.balances, events)), k) <==> Harmless(s, events, k)
  {
    CommittedIs(s, k);
    WrittenAllAdds(s.balances, events, k, Available);
    WrittenAllAdds(s.balances, events, k, Committed);
  }

  /**
   A batch leaves live money coupled to the reservations exactly when, for every account, the events of it that move
   available cash leave committed cash as it was and available cash not below nothing.
   */
  lemma {:induction false} BatchKeepsCoupledIff(s: State, events: seq<Event>)
    requires Coupled(s)
    ensures Coupled(s.(balances := WrittenAll(s.balances, events))) <==> forall k :: Harmless(s, events, k)
  {
    var s' := s.(balances := WrittenAll(s.balances, events));
    forall id | id in s.rows ensures s.rows[id].key in s'.balances {
      WrittenAllAdds(s.balances, events, s.rows[id].key, Available);
    }
    forall k ensures CoupledAt(s', k) <==> Harmless(s, events, k) { WrittenCoupledAt(s, events, k); }
  }

  /** The kernel's own event for a reservation is applied a second time: it decouples whenever the reservation holds cash. */
  lemma {:induction false} ReservationEventDecouplesIff(s: State, e: Event, k: Key, cash: int)
    requires Coupled(s) && cash >= 0
    requires Project(e) == Moves(Some(k.account), Some(k.asset), -cash, cash)
    ensures Coupled(s.(balances := WrittenAll(s.balances, [e]))) <==> cash == 0
  {
    BatchKeepsCoupledIff(s, [e]);
    forall j, side ensures NetWrites([e], j, side) == WriteOf(j, side)(e) { TotalOne(e, WriteOf(j, side)); }
    if cash == 0 {
      forall j ensures Harmless(s, [e], j) { CommittedIs(s, j); }
    } else {
      assert !Harmless(s, [e], k);
    }
  }

  /** A rebuild truncates the live table: what is left is coupled exactly when there is no reservation row at all. */
  lemma {:induction false} TruncateKeepsCoupledIff(s: State)
    requires Coupled(s)
    ensures Coupled(s.(balances := map[])) <==> s.rows == map[]
  {
    var s' := s.(balances := map[]);
    if s.rows != map[] {
      var id :| id in s.rows;
      assert s'.rows[id].key !in s'.balances;
    }
  }
}
