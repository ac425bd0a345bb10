/**
 The checkpointed projection engine: replay the log after the checkpoint, apply event after
 event in one transaction, advance the checkpoint with each, and roll everything back when an
 event cannot be applied. It is proved to agree with the plain fold of the log, over whole runs
 of appends, bounded batches, rolled-back batches and rebuilds, one after another; what happens
 when calls overlap or a rebuild dies half way is in `ProjectionRuns`.
 */
module ProjectionEngine {
  import opened BigInt
  import opened Wrappers
  import opened Money
  import opened Projection
  import opened SeqSums

  // ----- the log -----

  /** `kernel_events`, ordered by its unique positive sequence numbers. */
  ghost predicate Ordered(log: seq<Event>) {
    && (forall i :: 0 <= i < |log| ==> log[i].seqNo >= 1)
    && forall i, j :: 0 <= i < j < |log| ==> log[i].seqNo < log[j].seqNo
  }

  /** How many of the log's events have a sequence number of at most `c`. */
  function CountUpTo(log: seq<Event>, c: int): (n: nat)
    ensures n <= |log|
  {
    if log == [] || log[|log| - 1].seqNo <= c then |log| else CountUpTo(log[..|log| - 1], c)
  }

  function UpTo(log: seq<Event>, c: int): seq<Event> { log[..CountUpTo(log, c)] }

  /** `replay` from a sequence number, inclusive. */
  function From(log: seq<Event>, start: int): seq<Event> { log[CountUpTo(log, start - 1)..] }

  lemma {:induction false} CountSplits(log: seq<Event>, c: int)
    requires Ordered(log)
    ensures forall i :: 0 <= i < CountUpTo(log, c) ==> log[i].seqNo <= c
    ensures forall i :: CountUpTo(log, c) <= i < |log| ==> log[i].seqNo > c
  {
    if log != [] && log[|log| - 1].seqNo > c {
      CountSplits(log[..|log| - 1], c);
    }
  }

  /** The count is determined by where the sequence numbers cross the bound. */
  lemma {:induction false} CountIs(log: seq<Event>, c: int, n: nat)
    requires Ordered(log) && n <= |log|
    requires n == 0 || log[n - 1].seqNo <= c
    requires n == |log| || log[n].seqNo > c
    ensures CountUpTo(log, c) == n
  {
    CountSplits(log, c);
  }

  /** The upper bound of a batch: a missing bound and the (falsy) bound 0 both mean none. */
  function Bounded(log: seq<Event>, to: Option<int>): seq<Event> {
    if to.Some? && to.value != 0 then UpTo(log, to.value) else log
  }

  function StartOf(checkpoint: int, from: int): int {
    if checkpoint >= from then checkpoint + 1 else from
  }

  /** The events a batch is due to apply. */
  function Due(log: seq<Event>, checkpoint: int, from: int, to: Option<int>): seq<Event> {
    Bounded(From(log, StartOf(checkpoint, from)), to)
  }

  function Advanced(checkpoint: int, batch: seq<Event>): int {
    if batch == [] then checkpoint else Max(checkpoint, batch[|batch| - 1].seqNo)
  }

  /** One batch on a table and a checkpoint: all due events, or nothing. */
  function Batch(log: seq<Event>, t: Table, checkpoint: int, from: int, to: Option<int>): (Table, int, bool) {
    var due := Due(log, checkpoint, from, to);
    var folded := Fold(t, due);
    if folded.None? then (t, checkpoint, false) else (folded.value, Advanced(checkpoint, due), true)
  }

  // ----- the engine -----

  class Engine {
    var table: Table
    var checkpoints: map<string, int>

    constructor ()
      ensures table == map[] && checkpoints == map[]
    {
      table, checkpoints := map[], map[];
    }

    function Checkpoint(name: string): int
      reads this
    {
      if name in checkpoints then checkpoints[name] else 0
    }

    /** The checkpoint upsert never moves a checkpoint back. */
    method UpdateCheckpoint(name: string, seqNo: int)
      modifies this`checkpoints
      requires seqNo >= 0
      ensures Checkpoint(name) == Max(old(Checkpoint(name)), seqNo)
      ensures forall other :: other != name ==> Checkpoint(other) == old(Checkpoint(other))
    {
      if name in checkpoints {
        checkpoints := checkpoints[name := if checkpoints[name] >= seqNo then checkpoints[name] else seqNo];
      } else {
        checkpoints := checkpoints[name := seqNo];
      }
    }

    /**
     `process`, when no other call commits between its read and its transaction: one transaction for the whole batch. It succeeds exactly when every due event can
     be applied, and then the table is the fold of those events and the checkpoint the last of them;
     otherwise nothing changed.
     */
    method Process(log: seq<Event>, name: string, from: int, to: Option<int>) returns (committed: bool)
      requires Ordered(log)
      modifies this
      ensures (table, Checkpoint(name), committed) == Batch(log, old(table), old(Checkpoint(name)), from, to)
      ensures !committed ==> table == old(table) && checkpoints == old(checkpoints)
      ensures forall other :: other != name ==> Checkpoint(other) == old(Checkpoint(other))
    {
      var checkpoint := Checkpoint(name);
      var startSeq := if checkpoint >= from then checkpoint + 1 else from;
      var events := From(log, startSeq);
      ghost var due := Due(log, checkpoint, from, to);
      DueIsPrefix(log, checkpoint, from, to);
      var table0, checkpoints0 := table, checkpoints;
      var i := 0;
      while i < |events|
        invariant 0 <= i <= |due| <= |events|
        invariant InBatch(table0, checkpoint, due, i, table, Checkpoint(name))
        invariant forall other :: other != name ==> Checkpoint(other) == old(Checkpoint(other))
      {
        var row := events[i];
        if Past(to, row.seqNo) { break; }
        InBatchStep(table0, checkpoint, due, i, table, Checkpoint(name));
        var applied := ApplyEvent(table, row);
        match applied
        case None =>
          table, checkpoints := table0, checkpoints0;
          return false;
        case Some(t) =>
          table := t;
          UpdateCheckpoint(name, row.seqNo);
          i := i + 1;
      }
      InBatchDone(table0, checkpoint, due, table, Checkpoint(name));
      return true;
    }

    /** `rebuild`, when all three of its commits go through: truncate, reset the checkpoint, process from the start. */
    method Rebuild(log: seq<Event>, name: string, to: Option<int>) returns (committed: bool)
      requires Ordered(log)
      modifies this
      ensures (table, Checkpoint(name), committed) == Batch(log, map[], 0, 1, to)
    {
      table := map[];
      checkpoints := checkpoints[name := 0];
      committed := Process(log, name, 1, to);
    }
  }

  /** The loop's stopping test. */
  predicate Past(to: Option<int>, seqNo: int) { to.Some? && to.value != 0 && seqNo > to.value }

  lemma {:induction false} OrderedSuffix(log: seq<Event>, n: nat)
    requires Ordered(log) && n <= |log|
    ensures Ordered(log[n..])
  {}

  /** The due events are the replayed ones before the first that is past the bound. */
  lemma {:induction false} DueIsPrefix(log: seq<Event>, checkpoint: int, from: int, to: Option<int>)
    requires Ordered(log)
    ensures var events, due := From(log, StartOf(checkpoint, from)), Due(log, checkpoint, from, to);
            && Ordered(due) && |due| <= |events|
            && (forall i :: 0 <= i < |due| ==> due[i] == events[i] && !Past(to, events[i].seqNo))
            && (|due| < |events| ==> Past(to, events[|due|].seqNo))
  {
    var start := StartOf(checkpoint, from);
    OrderedSuffix(log, CountUpTo(log, start - 1));
    if to.Some? { CountSplits(From(log, start), to.value); }
  }

  /** `i` events into a batch: what is left of the fold, and the checkpoint reached. */
  ghost predicate InBatch(t0: Table, c0: int, due: seq<Event>, i: nat, t: Table, c: int) {
    i <= |due| && Ordered(due) && Fold(t0, due) == Fold(t, due[i..]) && c == Advanced(c0, due[..i])
  }

  lemma {:induction false} InBatchStep(t0: Table, c0: int, due: seq<Event>, i: nat, t: Table, c: int)
    requires InBatch(t0, c0, due, i, t, c) && i < |due|
    ensures ApplyEvent(t, due[i]).None? ==> Fold(t0, due).None?
    ensures ApplyEvent(t, due[i]).Some? ==>
              InBatch(t0, c0, due, i + 1, ApplyEvent(t, due[i]).value, Max(c, due[i].seqNo))
  {
    assert due[i..][1..] == due[i + 1..];
    assert due[..i + 1][i] == due[i];
    if i > 0 { assert due[..i][i - 1] == due[i - 1]; }
  }

  lemma {:induction false} InBatchDone(t0: Table, c0: int, due: seq<Event>, t: Table, c: int)
    requires InBatch(t0, c0, due, |due|, t, c)
    ensures Fold(t0, due) == Some(t) && c == Advanced(c0, due)
  {
    assert due[|due|..] == [] && due[..|due|] == due;
  }

  // ----- whole runs -----

  datatype World = World(log: seq<Event>, table: Table, checkpoint: int)

  const START := World([], map[], 0)

  /** What can happen between two reads: an append (sequence numbers may leave gaps), a batch, a lost batch, a rebuild. */
  datatype Step =
    | Append(kind: EventType, payload: Option<Payload>, gap: nat)
    | RunBatch(to: Option<int>)
    | RunRebuild(to: Option<int>)
    | RolledBack

  function LastSeq(log: seq<Event>): int { if log == [] then 0 else log[|log| - 1].seqNo }

  function Apply(w: World, step: Step): World {
    match step
    case Append(kind, payload, gap) => w.(log := w.log + [Event(LastSeq(w.log) + 1 + gap, kind, payload)])
    case RunBatch(to) =>
      var (t, c, _) := Batch(w.log, w.table, w.checkpoint, 1, to);
      w.(table := t, checkpoint := c)
    case RunRebuild(to) =>
      var (t, c, _) := Batch(w.log, map[], 0, 1, to);
      w.(table := t, checkpoint := c)
    case RolledBack => w
  }

  function Run(w: World, steps: seq<Step>): World
    decreases |steps|
  {
    if steps == [] then w else Run(Apply(w, steps[0]), steps[1..])
  }

  /** The table is the plain fold of the events up to the checkpoint. */
  ghost predicate Agrees(w: World) {
    && Ordered(w.log)
    && 0 <= w.checkpoint <= LastSeq(w.log)
    && Fold(map[], UpTo(w.log, w.checkpoint)) == Some(w.table)
  }

  /** What a batch is due stands in the log from where it starts. */
  lemma {:induction false} DueStands(log: seq<Event>, c: int, from: int, to: Option<int>)
    requires Ordered(log)
    ensures var due := Due(log, c, from, to); var m := CountUpTo(log, StartOf(c, from) - 1);
            m + |due| <= |log| && due == log[m..m + |due|]
  {
    DueIsPrefix(log, c, from, to);
  }

  /** Where a checkpoint stands that has been advanced over a part of the log. */
  lemma {:induction false} AdvancedCounts(log: seq<Event>, c: int, m: nat, n: nat)
    requires Ordered(log) && m < n <= |log| && c <= log[m].seqNo
    ensures Advanced(c, log[m..n]) == log[n - 1].seqNo && CountUpTo(log, log[n - 1].seqNo) == n
  {
    assert log[m..n][n - m - 1] == log[n - 1];
    CountIs(log, log[n - 1].seqNo, n);
  }

  /** What is due from sequence 1 is exactly what follows the part already folded. */
  lemma {:induction false} DueContinues(log: seq<Event>, c: int, to: Option<int>)
    requires Ordered(log) && 0 <= c <= LastSeq(log)
    ensures var due := Due(log, c, 1, to);
            && c <= Advanced(c, due) <= LastSeq(log)
            && UpTo(log, Advanced(c, due)) == UpTo(log, c) + due
  {
    var due, n := Due(log, c, 1, to), CountUpTo(log, c);
    assert StartOf(c, 1) - 1 == c;
    DueStands(log, c, 1, to);
    if due != [] { Continues(log, c, due, n); }
  }

  lemma {:induction false} Continues(log: seq<Event>, c: int, due: seq<Event>, n: nat)
    requires Ordered(log) && due != [] && n == CountUpTo(log, c) && n + |due| <= |log| && due == log[n..n + |due|]
    ensures c <= Advanced(c, due) <= LastSeq(log) && UpTo(log, Advanced(c, due)) == UpTo(log, c) + due
  {
    CountSplits(log, c);
    AdvancedCounts(log, c, n, n + |due|);
    assert n + |due| == |log| || log[n + |due| - 1].seqNo < log[|log| - 1].seqNo;
  }

  lemma {:induction false} BatchAgrees(w: World, to: Option<int>)
    requires Agrees(w)
    ensures Agrees(Apply(w, RunBatch(to)))
  {
    DueContinues(w.log, w.checkpoint, to);
    FoldSplit(map[], UpTo(w.log, w.checkpoint), Due(w.log, w.checkpoint, 1, to));
  }

  /** A rebuild needs nothing of the table it starts from, nor of its checkpoint. */
  lemma {:induction false} RebuildAgrees(w: World, to: Option<int>)
    requires Ordered(w.log)
    ensures Agrees(Apply(w, RunRebuild(to)))
  {
    CountIs(w.log, 0, 0);
    if w.log != [] { assert w.log[|w.log| - 1].seqNo >= 1; }
    BatchAgrees(World(w.log, map[], 0), to);
  }

  lemma {:induction false} AppendOrdered(log: seq<Event>, e: Event)
    requires Ordered(log) && e.seqNo > LastSeq(log) >= 0
    ensures Ordered(log + [e])
  {
    var log' := log + [e];
    forall i, j | 0 <= i < j < |log'| ensures log'[i].seqNo < log'[j].seqNo {
      if j == |log| && i < |log| - 1 { assert log[i].seqNo < log[|log| - 1].seqNo; }
    }
  }

  /** An event after the checkpoint changes nothing up to it. */
  lemma {:induction false} AppendUpTo(log: seq<Event>, e: Event, c: int)
    requires Ordered(log) && Ordered(log + [e]) && e.seqNo > c
    ensures UpTo(log + [e], c) == UpTo(log, c)
  {
    var n := CountUpTo(log, c);
    CountSplits(log, c);
    CountIs(log + [e], c, n);
    assert (log + [e])[..n] == log[..n];
  }

  lemma {:induction false} AppendAgrees(w: World, kind: EventType, payload: Option<Payload>, gap: nat)
    requires Agrees(w)
    ensures Agrees(Apply(w, Append(kind, payload, gap)))
  {
    var e := Event(LastSeq(w.log) + 1 + gap, kind, payload);
    AppendOrdered(w.log, e);
    AppendUpTo(w.log, e, w.checkpoint);
    var w' := Apply(w, Append(kind, payload, gap));
    assert w' == w.(log := w.log + [e]);
    assert LastSeq(w'.log) == e.seqNo;
    assert UpTo(w'.log, w'.checkpoint) == UpTo(w.log, w.checkpoint);
  }

  /** Incremental projection refines the fold, in every state any run reaches. */
  lemma {:induction false} RunAgrees(w: World, steps: seq<Step>)
    requires Agrees(w)
    ensures Agrees(Run(w, steps))
    decreases |steps|
  {
    if steps != [] {
      match steps[0] {
        case Append(kind, payload, gap) => AppendAgrees(w, kind, payload, gap);
        case RunBatch(to) => BatchAgrees(w, to);
        case RunRebuild(to) => RebuildAgrees(w, to);
        case RolledBack =>
      }
      RunAgrees(Apply(w, steps[0]), steps[1..]);
    }
  }

  /** In every reachable state each projected balance is the sum of the effects logged up to the checkpoint. */
  lemma {:induction false} ReachableBalances(steps: seq<Step>, k: Key, side: Side)
    ensures var w := Run(START, steps); BalanceIn(w.table, k, side) == Net(UpTo(w.log, w.checkpoint), k, side)
  {
    RunAgrees(START, steps);
    var w := Run(START, steps);
    FoldAddsUp(map[], UpTo(w.log, w.checkpoint), k, side);
  }

  /** After a batch that was committed nothing within its bound is left. */
  lemma {:induction false} NothingLeftDue(log: seq<Event>, c: int, to: Option<int>)
    requires Ordered(log) && 0 <= c <= LastSeq(log)
    ensures Due(log, Advanced(c, Due(log, c, 1, to)), 1, to) == []
  {
    var due := Due(log, c, 1, to);
    DueContinues(log, c, to);
    DueIsPrefix(log, c, 1, to);
    LeftFrom(log, c, due);
    DueIsPrefix(log, Advanced(c, due), 1, to);
  }

  /** What is replayed from a checkpoint that has moved on is what it has not passed. */
  lemma {:induction false} LeftFrom(log: seq<Event>, c: int, due: seq<Event>)
    requires 0 <= c <= Advanced(c, due) && UpTo(log, Advanced(c, due)) == UpTo(log, c) + due
    ensures var rest, left := From(log, StartOf(c, 1)), From(log, StartOf(Advanced(c, due), 1));
            |due| <= |rest| && left == rest[|due|..]
  {
    var n, m := CountUpTo(log, c), CountUpTo(log, Advanced(c, due));
    assert |UpTo(log, Advanced(c, due))| == m && |UpTo(log, c)| == n;
    assert StartOf(c, 1) - 1 == c && StartOf(Advanced(c, due), 1) - 1 == Advanced(c, due);
  }

  /** Running the same bound again changes nothing, committed or not. */
  lemma {:induction false} BatchIdempotent(w: World, to: Option<int>)
    requires Agrees(w)
    ensures var w1 := Apply(w, RunBatch(to)); Apply(w1, RunBatch(to)) == w1
  {
    NothingLeftDue(w.log, w.checkpoint, to);
  }

  /** Rebuilding a projection that is up to date reproduces it exactly. */
  lemma {:induction false} RebuildReproduces(w: World)
    requires Agrees(w) && w.checkpoint == LastSeq(w.log)
    ensures Apply(w, RunRebuild(None)) == w
  {
    CountIs(w.log, 0, 0);
    CountSplits(w.log, w.checkpoint);
    if w.log != [] { CountIs(w.log, w.checkpoint, |w.log|); }
    assert Due(w.log, 0, 1, None) == w.log;
    assert UpTo(w.log, w.checkpoint) == w.log;
  }

  // ----- where agreement can be lost -----

  lemma {:induction false} CountOrder(log: seq<Event>, a: int, b: int)
    requires Ordered(log) && a <= b
    ensures CountUpTo(log, a) <= CountUpTo(log, b)
  {
    var n, m := CountUpTo(log, a), CountUpTo(log, b);
    CountSplits(log, a);
    CountSplits(log, b);
    if m < |log| {
      var next := log[m];
      assert m >= n || next.seqNo <= a;
    }
  }

  /** The log with one more event at the place its sequence number gives it. */
  function Insert(log: seq<Event>, e: Event): seq<Event> {
    var n := CountUpTo(log, e.seqNo);
    log[..n] + [e] + log[n..]
  }

  lemma {:induction false} InsertOrdered(log: seq<Event>, e: Event)
    requires Ordered(log) && e.seqNo >= 1
    requires forall i :: 0 <= i < |log| ==> log[i].seqNo != e.seqNo
    ensures Ordered(Insert(log, e))
  {
    CountSplits(log, e.seqNo);
  }

  /**
   Sequence numbers are drawn before their transaction commits, so an event can become visible
   after a larger one. The projection stays in step with the log exactly when the newcomer is
   above the checkpoint or moves no money.
   */
  lemma {:induction false} LateAppendAgreesIff(w: World, e: Event)
    requires Agrees(w) && e.seqNo >= 1
    requires forall i :: 0 <= i < |w.log| ==> w.log[i].seqNo != e.seqNo
    ensures (forall k, side :: BalanceIn(w.table, k, side) == Net(UpTo(Insert(w.log, e), w.checkpoint), k, side))
            <==> e.seqNo > w.checkpoint || (forall k, side :: Delta(e, k, side) == 0)
  {
    var n := CountUpTo(w.log, w.checkpoint);
    forall k, side ensures BalanceIn(w.table, k, side) == Net(w.log[..n], k, side) {
      FoldAddsUp(map[], w.log[..n], k, side);
    }
    if e.seqNo > w.checkpoint {
      InsertAbove(w.log, e, w.checkpoint);
    } else {
      InsertBelow(w.log, e, w.checkpoint);
      var m := CountUpTo(w.log, e.seqNo);
      var with := w.log[..m] + [e] + w.log[m..n];
      forall k, side ensures Net(with, k, side) == Delta(e, k, side) + BalanceIn(w.table, k, side) {
        assert w.log[..n] == w.log[..m] + w.log[m..n];
        TotalInsert(w.log[..m], e, w.log[m..n], DeltaTo(k, side));
      }
    }
  }

  lemma {:induction false} InsertAbove(log: seq<Event>, e: Event, c: int)
    requires Ordered(log) && e.seqNo > c && e.seqNo >= 1
    requires forall i :: 0 <= i < |log| ==> log[i].seqNo != e.seqNo
    ensures UpTo(Insert(log, e), c) == UpTo(log, c)
  {
    InsertOrdered(log, e);
    CountOrder(log, c, e.seqNo);
    CountSplits(log, c);
    CountIs(Insert(log, e), c, CountUpTo(log, c));
  }

  lemma {:induction false} InsertBelow(log: seq<Event>, e: Event, c: int)
    requires Ordered(log) && 1 <= e.seqNo <= c
    requires forall i :: 0 <= i < |log| ==> log[i].seqNo != e.seqNo
    ensures var n, m := CountUpTo(log, c), CountUpTo(log, e.seqNo);
            m <= n && UpTo(Insert(log, e), c) == log[..m] + [e] + log[m..n]
  {
    InsertOrdered(log, e);
    CountOrder(log, e.seqNo, c);
    CountSplits(log, c);
    var n, m := CountUpTo(log, c), CountUpTo(log, e.seqNo);
    var log' := Insert(log, e);
    InsertedAt(log, e, m, n);
    CountIs(log', c, n + 1);
  }

  lemma {:induction false} InsertedAt(log: seq<Event>, e: Event, m: nat, n: nat)
    requires m <= n <= |log|
    ensures var log' := log[..m] + [e] + log[m..];
            && log'[..n + 1] == log[..m] + [e] + log[m..n]
            && log'[n] == (if n == m then e else log[n - 1])
            && (n < |log| ==> log'[n + 1] == log[n])
  {}
}
