/**
 The outbox: drain the event log to a handler, advancing a durable checkpoint after each
 successful dispatch. The process can die between any two awaits of the loop. Over any run of
 appends, drains and crashes the first deliveries follow the log without gaps, and there are at
 most as many redeliveries as crashes; all of it because the checkpoint row exists.
 */
module Outbox {
  import opened Wrappers

  type Id = string

  /** Where a drain dies: at the batch's job number `job`, before its handler ran, or after it but before the checkpoint. */
  datatype Crash = Crash(job: nat, handled: bool)

  /** The `outbox_checkpoints` row: absent, or present with the id last dispatched, if any. */
  type CheckpointRow = Option<Option<Id>>

  function LastJob(row: CheckpointRow): Option<Id> {
    if row.Some? then row.value else None
  }

  /** `findIndex`: the position of the first event with that id, or -1. */
  function FindIndex(log: seq<Id>, id: Id): (i: int)
    ensures -1 <= i < |log|
    ensures i >= 0 ==> log[i] == id
    ensures i < 0 ==> id !in log
  {
    if log == [] then -1
    else if log[0] == id then 0
    else
      var i := FindIndex(log[1..], id);
      if i < 0 then -1 else i + 1
  }

  /** The events a drain reads: those after the checkpointed one, or all of them. */
  function Pending(log: seq<Id>, row: CheckpointRow): seq<Id> {
    if LastJob(row).None? then log else log[FindIndex(log, LastJob(row).value) + 1..]
  }

  /** The checkpoint UPDATE: it changes a row, it does not create one. */
  function Checkpointed(row: CheckpointRow, id: Id): CheckpointRow {
    if row.Some? then Some(Some(id)) else None
  }

  // ----- the processor -----

  class Processor {
    var row: CheckpointRow
    /** What the handler has been called with, oldest first. */
    var delivered: seq<Id>

    constructor (row: CheckpointRow)
      ensures this.row == row && delivered == []
    {
      this.row := row;
      delivered := [];
    }

    /** `drain` over the events replayed from the log; `crash` says where, if anywhere, it dies. */
    method Drain(log: seq<Id>, crash: Option<Crash>) returns (processed: nat)
      modifies this
      ensures var batch := Pending(log, old(row)); var k := Dispatched(batch, crash);
              && processed == k
              && delivered == old(delivered) + batch[..k + Extra(batch, crash)]
              && row == (if k == 0 then old(row) else Checkpointed(old(row), batch[k - 1]))
    {
      var lastJobId := LastJob(row);
      var start := if lastJobId.Some? then FindIndex(log, lastJobId.value) else -1;
      var batch := if start >= 0 then log[start + 1..] else log;
      assert batch == Pending(log, row);
      processed := 0;
      while processed < |batch|
        invariant 0 <= processed <= Dispatched(batch, crash)
        invariant delivered == old(delivered) + batch[..processed]
        invariant row == if processed == 0 then old(row) else Checkpointed(old(row), batch[processed - 1])
      {
        var event := batch[processed];
        if crash == Some(Crash(processed, false)) { return; }
        delivered := delivered + [event];
        if crash == Some(Crash(processed, true)) { return; }
        row := Checkpointed(row, event);
        processed := processed + 1;
      }
    }
  }

  /** How many jobs of a batch are dispatched and checkpointed. */
  function Dispatched(batch: seq<Id>, crash: Option<Crash>): (k: nat)
    ensures k <= |batch|
  {
    if crash.Some? && crash.value.job < |batch| then crash.value.job else |batch|
  }

  /** Whether one more is handled but dies before its checkpoint. */
  function Extra(batch: seq<Id>, crash: Option<Crash>): nat {
    if crash.Some? && crash.value.job < |batch| && crash.value.handled then 1 else 0
  }

  // ----- runs -----

  datatype World = World(log: seq<Id>, row: CheckpointRow, delivered: seq<Id>, crashes: nat)

  datatype Step = Append(id: Id) | RunDrain(crash: Option<Crash>)

  function Drained(w: World, crash: Option<Crash>): World {
    var batch := Pending(w.log, w.row);
    var k := Dispatched(batch, crash);
    World(w.log, if k == 0 then w.row else Checkpointed(w.row, batch[k - 1]),
          w.delivered + batch[..k + Extra(batch, crash)],
          w.crashes + (if k < |batch| then 1 else 0))
  }

  /** Appending an id the log has is a no-op. */
  function Apply(w: World, step: Step): World {
    match step
    case Append(id) => if id in w.log then w else w.(log := w.log + [id])
    case RunDrain(crash) => Drained(w, crash)
  }

  function Run(w: World, steps: seq<Step>): World
    decreases |steps|
  {
    if steps == [] then w else Run(Apply(w, steps[0]), steps[1..])
  }

  const SEEDED := World([], Some(None), [], 0)
  const UNSEEDED := World([], None, [], 0)

  /** The deliveries with every repetition of an id removed: each at the place it was first delivered. */
  function FirstDeliveries(delivered: seq<Id>): seq<Id> {
    if delivered == [] then []
    else
      var last := delivered[|delivered| - 1];
      var before := FirstDeliveries(delivered[..|delivered| - 1]);
      if last in before then before else before + [last]
  }

  ghost predicate Distinct(xs: seq<Id>) { forall i, j :: 0 <= i < j < |xs| ==> xs[i] != xs[j] }

  /** The checkpoint row with the first `n` events behind it. */
  function At(log: seq<Id>, n: nat): CheckpointRow
    requires n <= |log|
  {
    Some(if n == 0 then None else Some(log[n - 1]))
  }

  /** The checkpoint stands at `n`; the first `m` events have been delivered, in order. */
  ghost predicate Standing(w: World, n: nat, m: nat) {
    && Distinct(w.log)
    && n <= m <= n + 1 && m <= |w.log|
    && w.row == At(w.log, n)
    && FirstDeliveries(w.delivered) == w.log[..m]
    && |w.delivered| <= n + w.crashes
  }

  ghost predicate Orderly(w: World) { exists n: nat, m: nat :: Standing(w, n, m) }

  lemma {:induction false} PendingFrom(log: seq<Id>, n: nat)
    requires Distinct(log) && n <= |log|
    ensures Pending(log, At(log, n)) == log[n..]
  {}

  /** Delivering `log[n..j]` on top of the first `m` (with `n <= m <= n + 1`) delivers a longer prefix, in order. */
  lemma {:induction false} DeliverPrefix(log: seq<Id>, delivered: seq<Id>, n: nat, m: nat, j: nat)
    requires Distinct(log) && n <= m <= n + 1 && m <= |log| && n <= j <= |log|
    requires FirstDeliveries(delivered) == log[..m]
    ensures FirstDeliveries(delivered + log[n..j]) == log[..if j > m then j else m]
    decreases j
  {
    if j == n {
      assert delivered + log[n..j] == delivered;
    } else {
      DeliverPrefix(log, delivered, n, m, j - 1);
      assert delivered + log[n..j] == delivered + log[n..j - 1] + [log[j - 1]];
      DeliverOne(log, delivered + log[n..j - 1], if j - 1 > m then j - 1 else m, j - 1);
    }
  }

  lemma {:induction false} DeliverOne(log: seq<Id>, delivered: seq<Id>, q: nat, i: nat)
    requires Distinct(log) && i <= q <= |log| && i < |log| && FirstDeliveries(delivered) == log[..q]
    ensures FirstDeliveries(delivered + [log[i]]) == log[..if i == q then q + 1 else q]
  {
    FirstNext(delivered, log[i]);
    InPrefix(log, q, i);
  }

  lemma {:induction false} FirstNext(delivered: seq<Id>, id: Id)
    ensures FirstDeliveries(delivered + [id]) == FirstDeliveries(delivered) + if id in FirstDeliveries(delivered) then [] else [id]
  {
    assert (delivered + [id])[..|delivered|] == delivered;
  }

  lemma {:induction false} InPrefix(log: seq<Id>, n: nat, i: nat)
    requires Distinct(log) && n <= |log| && i < |log|
    ensures log[i] in log[..n] <==> i < n
  {
    if i < n { assert log[..n][i] == log[i]; }
  }

  /** The world after `k` more jobs are checkpointed and `x` of a further one is handled. */
  function Reached(w: World, n: nat, k: nat, x: nat, crashed: nat): World
    requires n + k + x <= |w.log|
  {
    World(w.log, At(w.log, n + k), w.delivered + w.log[n..n + k + x], w.crashes + crashed)
  }

  /** What a drain from a checkpoint at `n` does, in terms of the log. */
  lemma {:induction false} DrainFrom(w: World, crash: Option<Crash>, n: nat)
    requires Distinct(w.log) && n <= |w.log| && w.row == At(w.log, n)
    ensures var k := Dispatched(w.log[n..], crash); var x := Extra(w.log[n..], crash);
            && n + k + x <= |w.log|
            && Drained(w, crash) == Reached(w, n, k, x, if n + k < |w.log| then 1 else 0)
  {
    PendingFrom(w.log, n);
    BatchFrom(w, crash, n);
  }

  lemma {:induction false} BatchFrom(w: World, crash: Option<Crash>, n: nat)
    requires n <= |w.log| && w.row == At(w.log, n) && Pending(w.log, w.row) == w.log[n..]
    ensures var k := Dispatched(w.log[n..], crash); var x := Extra(w.log[n..], crash);
            && n + k + x <= |w.log|
            && Drained(w, crash) == Reached(w, n, k, x, if n + k < |w.log| then 1 else 0)
  {
    var batch := w.log[n..];
    var k, x, w' := Dispatched(batch, crash), Extra(batch, crash), Drained(w, crash);
    assert k + x <= |batch|;
    SliceFrom(w.log, n, k + x);
    RowAfter(w.log, w.row, n, k);
    assert w'.delivered == w.delivered + w.log[n..n + k + x];
    assert w'.row == At(w.log, n + k);
  }

  lemma {:induction false} SliceFrom(log: seq<Id>, n: nat, i: nat)
    requires n + i <= |log|
    ensures log[n..][..i] == log[n..n + i]
  {}

  lemma {:induction false} RowAfter(log: seq<Id>, row: CheckpointRow, n: nat, k: nat)
    requires n + k <= |log| && row == At(log, n)
    ensures (if k == 0 then row else Checkpointed(row, log[n..][k - 1])) == At(log, n + k)
  {}

  /** Where the first deliveries end after that. */
  function Further(n: nat, m: nat, k: nat, x: nat): nat { if n + k + x > m then n + k + x else m }

  lemma {:induction false} ReachedStands(w: World, n: nat, m: nat, k: nat, x: nat, crashed: nat)
    requires Standing(w, n, m) && n + k + x <= |w.log| && x <= crashed <= 1
    ensures Standing(Reached(w, n, k, x, crashed), n + k, Further(n, m, k, x))
  {
    DeliverPrefix(w.log, w.delivered, n, m, n + k + x);
  }

  lemma {:induction false} DrainOrderly(w: World, crash: Option<Crash>, n: nat, m: nat)
    requires Standing(w, n, m)
    ensures var k := Dispatched(w.log[n..], crash); var x := Extra(w.log[n..], crash);
            Standing(Drained(w, crash), n + k, Further(n, m, k, x))
  {
    var k, x := Dispatched(w.log[n..], crash), Extra(w.log[n..], crash);
    DrainFrom(w, crash, n);
    ReachedStands(w, n, m, k, x, if n + k < |w.log| then 1 else 0);
  }

  lemma {:induction false} AppendOrderly(w: World, id: Id, n: nat, m: nat)
    requires Standing(w, n, m)
    ensures Standing(Apply(w, Append(id)), n, m)
  {
    if id !in w.log { assert (w.log + [id])[..m] == w.log[..m]; }
  }

  lemma {:induction false} ApplyOrderly(w: World, step: Step)
    requires Orderly(w)
    ensures Orderly(Apply(w, step))
  {
    var n: nat, m: nat :| Standing(w, n, m);
    match step
    case Append(id) => AppendOrderly(w, id, n, m);
    case RunDrain(crash) => DrainOrderly(w, crash, n, m);
  }

  lemma {:induction false} RunOrderly(w: World, steps: seq<Step>)
    requires Orderly(w)
    ensures Orderly(Run(w, steps))
    decreases |steps|
  {
    if steps != [] {
      ApplyOrderly(w, steps[0]);
      RunOrderly(Apply(w, steps[0]), steps[1..]);
    }
  }

  /** A drain that does not crash delivers all it read, and leaves nothing for the next one. */
  lemma {:induction false} CompletedDrain(w: World, n: nat, m: nat)
    requires Standing(w, n, m)
    ensures FirstDeliveries(Drained(w, None).delivered) == w.log
    ensures Drained(Drained(w, None), None).delivered == Drained(w, None).delivered
  {
    DrainOrderly(w, None, n, m);
    var w' := Drained(w, None);
    assert w.log[..|w.log|] == w.log;
    DrainFrom(w', None, |w.log|);
    assert w'.delivered + [] == w'.delivered;
  }

  /**
   Gap-free at-least-once delivery, with a seeded checkpoint row: first deliveries are a prefix of
   the log in log order, redeliveries are at most the crashes, and a drain that completes has
   delivered every event it read.
   */
  lemma {:induction false} GapFreeAtLeastOnce(steps: seq<Step>)
    ensures var w := Run(SEEDED, steps); var first := FirstDeliveries(w.delivered);
            && first <= w.log
            && |w.delivered| - |first| <= w.crashes
            && FirstDeliveries(Drained(w, None).delivered) == w.log
            && Drained(Drained(w, None), None).delivered == Drained(w, None).delivered
  {
    assert Standing(SEEDED, 0, 0);
    RunOrderly(SEEDED, steps);
    var w := Run(SEEDED, steps);
    var n: nat, m: nat :| Standing(w, n, m);
    CompletedDrain(w, n, m);
  }

  lemma {:induction false} UnseededStays(w: World, steps: seq<Step>)
    requires w.row.None?
    ensures Run(w, steps).row.None?
    decreases |steps|
  {
    if steps != [] { UnseededStays(Apply(w, steps[0]), steps[1..]); }
  }

  /**
   Without the row no checkpoint is ever stored, so every drain starts over: a second drain with
   nothing new repeats the whole log, and repeats nothing only if there is nothing to repeat.
   */
  lemma {:induction false} UnseededRedelivers(steps: seq<Step>)
    ensures var w := Drained(Run(UNSEEDED, steps), None);
            && Drained(w, None).delivered == w.delivered + w.log
            && (Drained(w, None).delivered == w.delivered <==> w.log == [])
  {
    UnseededStays(UNSEEDED, steps);
    var w := Drained(Run(UNSEEDED, steps), None);
    assert w.log[..|w.log|] == w.log;
    assert |w.delivered + w.log| == |w.delivered| + |w.log|;
  }

  // ----- an event that appears late -----

  /** Where the checkpoint stands: how many events are behind it. */
  function Position(w: World): nat {
    if LastJob(w.row).None? then 0 else FindIndex(w.log, LastJob(w.row).value) + 1
  }

  /** The log with one more event at position `p`, because its transaction committed after later numbers. */
  function Appeared(w: World, id: Id, p: nat): World
    requires p <= |w.log|
  {
    w.(log := w.log[..p] + [id] + w.log[p..])
  }

  lemma {:induction false} PositionIs(w: World, n: nat)
    requires Distinct(w.log) && n <= |w.log| && w.row == At(w.log, n)
    ensures Position(w) == n
  {
    if n > 0 {
      var i := FindIndex(w.log, w.log[n - 1]);
      assert i == n - 1;
    }
  }

  lemma {:induction false} DeliveredAtFirst(delivered: seq<Id>, id: Id)
    requires id in delivered
    ensures id in FirstDeliveries(delivered)
    decreases |delivered|
  {
    var n := |delivered| - 1;
    if id != delivered[n] {
      assert delivered == delivered[..n] + [delivered[n]];
      DeliveredAtFirst(delivered[..n], id);
    }
  }

  /** The event is behind the checkpoint and has not been delivered. */
  ghost predicate Missed(w: World, id: Id, n: nat) {
    Distinct(w.log) && n <= |w.log| && w.row == At(w.log, n) && id in w.log[..n] && id !in w.delivered
  }

  lemma {:induction false} DrainMisses(w: World, crash: Option<Crash>, id: Id, n: nat) returns (n': nat)
    requires Missed(w, id, n)
    ensures Missed(Drained(w, crash), id, n')
  {
    DrainFrom(w, crash, n);
    var k, x := Dispatched(w.log[n..], crash), Extra(w.log[n..], crash);
    n' := n + k;
    BehindStays(w.log, id, n, n', n' + x);
  }

  lemma {:induction false} BehindStays(log: seq<Id>, id: Id, n: nat, n': nat, j: nat)
    requires Distinct(log) && n <= n' <= j <= |log| && id in log[..n]
    ensures id in log[..n'] && id !in log[n..j]
  {
    var i :| 0 <= i < n && log[i] == id;
    assert log[..n'][i] == id;
  }

  lemma {:induction false} MissedForGood(w: World, steps: seq<Step>, id: Id, n: nat)
    requires Missed(w, id, n)
    ensures id !in Run(w, steps).delivered
    decreases |steps|
  {
    if steps != [] {
      match steps[0]
      case Append(other) =>
        if other !in w.log { assert (w.log + [other])[..n] == w.log[..n]; }
        MissedForGood(Apply(w, steps[0]), steps[1..], id, n);
      case RunDrain(crash) =>
        var n' := DrainMisses(w, crash, id, n);
        MissedForGood(Apply(w, steps[0]), steps[1..], id, n');
    }
  }

  lemma {:induction false} AppearedStands(w: World, id: Id, p: nat, n: nat)
    requires Distinct(w.log) && id !in w.log && p <= |w.log| && n <= |w.log| && w.row == At(w.log, n)
    ensures var w' := Appeared(w, id, p); var n' := if p < n then n + 1 else n;
            Distinct(w'.log) && n' <= |w'.log| && w'.row == At(w'.log, n') && w'.log[p] == id
  {
    var log' := Appeared(w, id, p).log;
    forall i, j | 0 <= i < j < |log'| ensures log'[i] != log'[j] {
      if i == p { assert log'[j] == w.log[j - 1]; }
      if j == p { assert log'[i] == w.log[i]; }
    }
  }

  ghost predicate EverDelivered(w: World, id: Id) { exists steps :: id in Run(w, steps).delivered }

  /**
   An event that becomes visible when the checkpoint has moved past its place in the log is never delivered,
   by no run of appends, drains and crashes; one that appears at or after the checkpoint is delivered by
   the next drain that completes.
   */
  lemma {:induction false} LateEventDeliveredIff(steps: seq<Step>, id: Id, p: nat)
    requires p <= |Run(SEEDED, steps).log| && id !in Run(SEEDED, steps).log
    ensures var w := Run(SEEDED, steps); var w' := Appeared(w, id, p);
            && (EverDelivered(w', id) <==> p >= Position(w))
            && (id in Drained(w', None).delivered <==> p >= Position(w))
  {
    assert Standing(SEEDED, 0, 0);
    RunOrderly(SEEDED, steps);
    var w := Run(SEEDED, steps);
    var n: nat, m: nat :| Standing(w, n, m);
    PositionIs(w, n);
    AppearedStands(w, id, p, n);
    assert id !in w.delivered by {
      if id in w.delivered { DeliveredAtFirst(w.delivered, id); }
    }
    LateEvent(w, id, p, n);
  }

  lemma {:induction false} LateEvent(w: World, id: Id, p: nat, n: nat)
    requires Distinct(w.log) && p <= |w.log| && n <= |w.log| && id !in w.delivered
    requires var w' := Appeared(w, id, p); var n' := if p < n then n + 1 else n;
             Distinct(w'.log) && n' <= |w'.log| && w'.row == At(w'.log, n') && w'.log[p] == id
    ensures var w' := Appeared(w, id, p);
            && (EverDelivered(w', id) <==> p >= n)
            && (id in Drained(w', None).delivered <==> p >= n)
  {
    if p < n {
      LateIsMissed(Appeared(w, id, p), id, p, n + 1);
    } else {
      LateIsDrained(Appeared(w, id, p), id, p, n);
    }
  }

  lemma {:induction false} LateIsMissed(w: World, id: Id, p: nat, n: nat)
    requires Distinct(w.log) && p < n <= |w.log| && w.row == At(w.log, n) && w.log[p] == id && id !in w.delivered
    ensures !EverDelivered(w, id) && id !in Drained(w, None).delivered
  {
    assert w.log[..n][p] == id;
    assert Missed(w, id, n);
    forall steps ensures id !in Run(w, steps).delivered { MissedForGood(w, steps, id, n); }
    OneDrain(w);
  }

  lemma {:induction false} LateIsDrained(w: World, id: Id, p: nat, n: nat)
    requires Distinct(w.log) && n <= p < |w.log| && w.row == At(w.log, n) && w.log[p] == id
    ensures EverDelivered(w, id) && id in Drained(w, None).delivered
  {
    DrainFrom(w, None, n);
    var rest := w.log[n..|w.log|];
    assert rest[p - n] == id;
    assert Drained(w, None).delivered == w.delivered + rest;
    OneDrain(w);
  }

  lemma {:induction false} OneDrain(w: World)
    ensures Run(w, [RunDrain(None)]) == Drained(w, None)
  {
    assert [RunDrain(None)][1..] == [];
    assert Run(Drained(w, None), []) == Drained(w, None);
  }
}
