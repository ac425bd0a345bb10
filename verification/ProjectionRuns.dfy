/**
 The projection engine between its transactions. A call reads the checkpoint and the log before its
 transaction begins, so calls can overlap; a rebuild is three commits, so one can die in between. Over any
 interleaving the table drifts from the log by an exact amount, and it is exactly in step when that is nothing.
 */
module ProjectionRuns {
  import opened Wrappers
  import Money
  import opened Projection
  import opened SeqSums
  import opened ProjectionEngine

  /** `calls` holds what each call of `process` has read and not yet committed. */
  datatype Projector = Projector(log: seq<Event>, table: Table, checkpoint: int, calls: seq<seq<Event>>)

  const CLEAN := Projector([], map[], 0, [])

  /** `Truncate` and `Reset` are the first two commits of a rebuild; its third is a call from sequence 1. */
  datatype Move =
    | Appear(e: Event)
    | Begin(from: int, to: Option<int>)
    | Commit(call: nat)
    | Truncate
    | Reset

  ghost predicate Fresh(log: seq<Event>, e: Event) {
    e.seqNo >= 1 && forall i :: 0 <= i < |log| ==> log[i].seqNo != e.seqNo
  }

  predicate Lands(w: Projector, call: nat) { call < |w.calls| && Fold(w.table, w.calls[call]).Some? }

  /** A committed batch, or nothing when an event of it cannot be applied. */
  function Committed(w: Projector, call: nat): Projector {
    if !Lands(w, call) then w
    else
      Projector(w.log, Fold(w.table, w.calls[call]).value, Advanced(w.checkpoint, w.calls[call]), w.calls[call := []])
  }

  ghost function Moved(w: Projector, m: Move): Projector {
    match m
    case Appear(e) => if Fresh(w.log, e) then w.(log := Insert(w.log, e)) else w
    case Begin(from, to) => w.(calls := w.calls + [Due(w.log, w.checkpoint, from, to)])
    case Commit(call) => Committed(w, call)
    case Truncate => w.(table := map[])
    case Reset => w.(checkpoint := 0)
  }

  ghost function MovedBy(w: Projector, moves: seq<Move>): Projector
    decreases |moves|
  {
    if moves == [] then w else MovedBy(Moved(w, moves[0]), moves[1..])
  }

  // ----- drift -----

  /** What the table has over the log up to the checkpoint. */
  function Drift(w: Projector, k: Money.Key, side: Side): int {
    BalanceIn(w.table, k, side) - Net(UpTo(w.log, w.checkpoint), k, side)
  }

  ghost predicate InStep(w: Projector) { forall k, side :: Drift(w, k, side) == 0 }

  /** The events a checkpoint passes on its way from `c` to `c'`. */
  function Passed(log: seq<Event>, c: int, c': int): seq<Event> {
    var n, m := CountUpTo(log, c), CountUpTo(log, c');
    if n <= m then log[n..m] else []
  }

  /**
   What a move adds to the drift: a commit what it applied less what its checkpoint passed, an event that
   appears behind the checkpoint its absence, a truncation all there was, a reset all that was accounted for.
   */
  ghost function DriftOf(w: Projector, m: Move, k: Money.Key, side: Side): int {
    match m
    case Appear(e) => if Fresh(w.log, e) && e.seqNo <= w.checkpoint then -Delta(e, k, side) else 0
    case Begin(_, _) => 0
    case Commit(call) =>
      if Lands(w, call)
      then Net(w.calls[call], k, side) - Net(Passed(w.log, w.checkpoint, Advanced(w.checkpoint, w.calls[call])), k, side)
      else 0
    case Truncate => -BalanceIn(w.table, k, side)
    case Reset => Net(UpTo(w.log, w.checkpoint), k, side)
  }

  ghost function DriftIn(w: Projector, moves: seq<Move>, k: Money.Key, side: Side): int
    decreases |moves|
  {
    if moves == [] then 0 else DriftOf(w, moves[0], k, side) + DriftIn(Moved(w, moves[0]), moves[1..], k, side)
  }

  lemma {:induction false} PassedAdds(log: seq<Event>, c: int, c': int, k: Money.Key, side: Side)
    requires Ordered(log) && c <= c'
    ensures Net(UpTo(log, c'), k, side) == Net(UpTo(log, c), k, side) + Net(Passed(log, c, c'), k, side)
  {
    CountOrder(log, c, c');
    assert UpTo(log, c') == UpTo(log, c) + Passed(log, c, c');
    TotalSplit(UpTo(log, c), Passed(log, c, c'), DeltaTo(k, side));
  }

  lemma {:induction false} AppearAdds(log: seq<Event>, e: Event, c: int, k: Money.Key, side: Side)
    requires Ordered(log) && Fresh(log, e)
    ensures Net(UpTo(Insert(log, e), c), k, side)
            == Net(UpTo(log, c), k, side) + if e.seqNo <= c then Delta(e, k, side) else 0
  {
    if e.seqNo > c {
      InsertAbove(log, e, c);
    } else {
      InsertBelow(log, e, c);
      var n, m := CountUpTo(log, c), CountUpTo(log, e.seqNo);
      assert log[..n] == log[..m] + log[m..n];
      TotalInsert(log[..m], e, log[m..n], DeltaTo(k, side));
    }
  }

  lemma {:induction false} ResetAdds(log: seq<Event>, k: Money.Key, side: Side)
    requires Ordered(log)
    ensures Net(UpTo(log, 0), k, side) == 0
  {
    CountIs(log, 0, 0);
    assert UpTo(log, 0) == [];
  }

  lemma {:induction false} MoveDrifts(w: Projector, m: Move, k: Money.Key, side: Side)
    requires Ordered(w.log)
    ensures Ordered(Moved(w, m).log)
    ensures Drift(Moved(w, m), k, side) == Drift(w, k, side) + DriftOf(w, m, k, side)
  {
    match m
    case Appear(e) =>
      if Fresh(w.log, e) {
        InsertOrdered(w.log, e);
        AppearAdds(w.log, e, w.checkpoint, k, side);
      }
    case Begin(_, _) =>
    case Commit(call) =>
      if Lands(w, call) {
        FoldAddsUp(w.table, w.calls[call], k, side);
        PassedAdds(w.log, w.checkpoint, Advanced(w.checkpoint, w.calls[call]), k, side);
      }
    case Truncate =>
    case Reset => ResetAdds(w.log, k, side);
  }

  /** Over any interleaving the drift is the sum of what the moves added to it. */
  lemma {:induction false} RunDrifts(w: Projector, moves: seq<Move>, k: Money.Key, side: Side)
    requires Ordered(w.log)
    ensures Ordered(MovedBy(w, moves).log)
    ensures Drift(MovedBy(w, moves), k, side) == Drift(w, k, side) + DriftIn(w, moves, k, side)
    decreases |moves|
  {
    if moves != [] {
      MoveDrifts(w, moves[0], k, side);
      RunDrifts(Moved(w, moves[0]), moves[1..], k, side);
    }
  }

  /** Nothing was ever added to the drift that was not taken out again. */
  ghost predicate CancelsOut(w: Projector, moves: seq<Move>) { forall k, side :: DriftIn(w, moves, k, side) == 0 }

  /** From a projection in step it ends in step exactly when, for every balance, the drift cancels out. */
  lemma {:induction false} InStepIff(w: Projector, moves: seq<Move>)
    requires Ordered(w.log) && InStep(w)
    ensures InStep(MovedBy(w, moves)) <==> CancelsOut(w, moves)
  {
    var w' := MovedBy(w, moves);
    forall k, side ensures Drift(w', k, side) == DriftIn(w, moves, k, side) {
      RunDrifts(w, moves, k, side);
      assert Drift(w, k, side) == 0;
    }
    if InStep(w') {
      forall k, side ensures DriftIn(w, moves, k, side) == 0 { assert Drift(w', k, side) == 0; }
    } else {
      var k, side :| Drift(w', k, side) != 0;
      assert DriftIn(w, moves, k, side) != 0;
    }
  }

  /** So it does from empty tables. */
  lemma {:induction false} CleanRunInStepIff(moves: seq<Move>)
    ensures InStep(MovedBy(CLEAN, moves)) <==> CancelsOut(CLEAN, moves)
  {
    assert UpTo([], 0) == [];
    InStepIff(CLEAN, moves);
  }

  // ----- a call with nothing in between -----

  lemma {:induction false} MovedByTwo(w: Projector, a: Move, b: Move)
    ensures MovedBy(w, [a, b]) == Moved(Moved(w, a), b)
  {
    assert [a, b][1..] == [b] && [b][1..] == [];
    assert MovedBy(Moved(Moved(w, a), b), []) == Moved(Moved(w, a), b);
    assert MovedBy(Moved(w, a), [b]) == Moved(Moved(w, a), b);
  }

  /** Sequence numbers a checkpoint can have: none beyond the log. */
  ghost predicate Tracks(w: Projector) { Ordered(w.log) && 0 <= w.checkpoint <= LastSeq(w.log) }

  /** A call that starts where the checkpoint stands, uninterrupted, is the batch of the engine, and adds no drift. */
  lemma {:induction false} WholeCallKeepsDrift(w: Projector, to: Option<int>, k: Money.Key, side: Side)
    requires Tracks(w)
    ensures var w' := MovedBy(w, [Begin(1, to), Commit(|w.calls|)]);
            && (w'.table, w'.checkpoint) == (Batch(w.log, w.table, w.checkpoint, 1, to).0, Batch(w.log, w.table, w.checkpoint, 1, to).1)
            && w'.log == w.log && Tracks(w') && Drift(w', k, side) == Drift(w, k, side)
  {
    MovedByTwo(w, Begin(1, to), Commit(|w.calls|));
    DueContinues(w.log, w.checkpoint, to);
    var due := Due(w.log, w.checkpoint, 1, to);
    if Fold(w.table, due).Some? {
      FoldAddsUp(w.table, due, k, side);
      TotalSplit(UpTo(w.log, w.checkpoint), due, DeltaTo(k, side));
    }
  }

  /** The events a call that starts at `from` jumps over. */
  function Skipped(log: seq<Event>, checkpoint: int, from: int): seq<Event> { Passed(log, checkpoint, from - 1) }

  lemma {:induction false} SliceJoins(log: seq<Event>, n: nat, m: nat, j: nat)
    requires n <= m <= j <= |log|
    ensures log[n..j] == log[n..m] + log[m..j]
  {}

  /** What a checkpoint passes that is advanced over a later part of the log: first what it skips. */
  lemma {:induction false} PassesFirst(log: seq<Event>, c: int, b: int, j: nat)
    requires Ordered(log) && c <= b && CountUpTo(log, b) < j <= |log|
    ensures var m := CountUpTo(log, b); var due := log[m..j];
            Passed(log, c, Advanced(c, due)) == Passed(log, c, b) + due
  {
    var m := CountUpTo(log, b);
    CountSplits(log, b);
    CountOrder(log, c, b);
    AdvancedCounts(log, c, m, j);
    SliceJoins(log, CountUpTo(log, c), m, j);
  }

  /** What the checkpoint of such a call passes: first the events it skips, then those it is due. */
  lemma {:induction false} LatePasses(log: seq<Event>, c: int, from: int, to: Option<int>)
    requires Ordered(log) && from > c && Due(log, c, from, to) != []
    ensures var due := Due(log, c, from, to);
            Passed(log, c, Advanced(c, due)) == Skipped(log, c, from) + due
  {
    var due, b := Due(log, c, from, to), from - 1;
    assert StartOf(c, from) - 1 == b;
    DueStands(log, c, from, to);
    var j := CountUpTo(log, b) + |due|;
    assert due == log[CountUpTo(log, b)..j];
    PassesFirst(log, c, b, j);
    assert Skipped(log, c, from) == Passed(log, c, b);
  }

  /**
   A call that starts above the checkpoint and applies anything, up to whatever bound, leaves the projection
   in step exactly when the events it jumps over move no balance.
   */
  lemma {:induction false} LateStartInStepIff(w: Projector, from: int, to: Option<int>)
    requires Ordered(w.log) && InStep(w) && from > w.checkpoint
    requires Due(w.log, w.checkpoint, from, to) != [] && Fold(w.table, Due(w.log, w.checkpoint, from, to)).Some?
    ensures InStep(MovedBy(w, [Begin(from, to), Commit(|w.calls|)]))
            <==> forall k, side :: Net(Skipped(w.log, w.checkpoint, from), k, side) == 0
  {
    var due, skipped := Due(w.log, w.checkpoint, from, to), Skipped(w.log, w.checkpoint, from);
    var w' := MovedBy(w, [Begin(from, to), Commit(|w.calls|)]);
    MovedByTwo(w, Begin(from, to), Commit(|w.calls|));
    LatePasses(w.log, w.checkpoint, from, to);
    forall k, side ensures Drift(w', k, side) == -Net(skipped, k, side) {
      assert Drift(w, k, side) == 0;
      MoveDrifts(Moved(w, Begin(from, to)), Commit(|w.calls|), k, side);
      TotalSplit(skipped, due, DeltaTo(k, side));
    }
    SameZeros(w', skipped);
  }

  lemma {:induction false} SameZeros(w: Projector, events: seq<Event>)
    requires forall k, side :: Drift(w, k, side) == 0 <==> Net(events, k, side) == 0
    ensures InStep(w) <==> forall k, side :: Net(events, k, side) == 0
  {}

  // ----- two calls that overlap -----

  /** Whether an event can be applied does not depend on the table. */
  lemma {:induction false} FoldsAnywhere(t: Table, t': Table, events: seq<Event>)
    ensures Fold(t, events).Some? <==> Fold(t', events).Some?
    decreases |events|
  {
    if events != [] {
      var s, s' := ApplyEvent(t, events[0]), ApplyEvent(t', events[0]);
      if s.Some? && s'.Some? { FoldsAnywhere(s.value, s'.value, events[1..]); }
    }
  }

  /** The part of the log from where the checkpoint stands to position `j`. */
  function Next(log: seq<Event>, c: int, j: nat): seq<Event>
    requires CountUpTo(log, c) <= j <= |log|
  {
    log[CountUpTo(log, c)..j]
  }

  /** Applying what comes next, the checkpoint passes just that. */
  lemma {:induction false} NextPasses(log: seq<Event>, c: int, j: nat)
    requires Ordered(log) && CountUpTo(log, c) <= j <= |log|
    ensures var c' := Advanced(c, Next(log, c, j)); Passed(log, c, c') == Next(log, c, j)
    ensures var c' := Advanced(c, Next(log, c, j)); c <= c' && CountUpTo(log, c') == j
  {
    var n := CountUpTo(log, c);
    CountSplits(log, c);
    if n < j { AdvancedCounts(log, c, n, j); }
  }

  /** A second batch from the same place passes only what the first did not. */
  lemma {:induction false} OverlapPasses(log: seq<Event>, c: int, i: nat, j: nat)
    requires Ordered(log) && CountUpTo(log, c) <= i <= |log| && CountUpTo(log, c) <= j <= |log|
    ensures var c1 := Advanced(c, Next(log, c, i));
            Passed(log, c1, Advanced(c1, Next(log, c, j))) == if i < j then log[i..j] else []
  {
    var n, c1 := CountUpTo(log, c), Advanced(c, Next(log, c, i));
    NextPasses(log, c, i);
    NextPasses(log, c, j);
    CountSplits(log, c1);
    if n < j {
      assert Next(log, c, j)[j - n - 1] == log[j - 1];
      if i < j { CountIs(log, log[j - 1].seqNo, j); }
    }
  }

  function Shorter(a: seq<Event>, b: seq<Event>): seq<Event> { if |a| <= |b| then a else b }

  /** What the second of two such batches adds to the drift: the shorter of them, applied twice. */
  lemma {:induction false} OverlapNet(log: seq<Event>, c: int, i: nat, j: nat, k: Money.Key, side: Side)
    requires Ordered(log) && CountUpTo(log, c) <= i <= |log| && CountUpTo(log, c) <= j <= |log|
    ensures var c1 := Advanced(c, Next(log, c, i)); var second := Next(log, c, j);
            Net(second, k, side) - Net(Passed(log, c1, Advanced(c1, second)), k, side)
            == Net(Shorter(Next(log, c, i), second), k, side)
  {
    OverlapPasses(log, c, i, j);
    if i < j {
      SliceJoins(log, CountUpTo(log, c), i, j);
      TotalSplit(Next(log, c, i), log[i..j], DeltaTo(k, side));
    }
  }

  function Overlap(w: Projector, to: Option<int>, to': Option<int>): seq<Move> {
    [Begin(1, to), Begin(1, to'), Commit(|w.calls|), Commit(|w.calls| + 1)]
  }

  /** A commit of what comes next adds no drift. */
  lemma {:induction false} CommitNext(w: Projector, call: nat, j: nat, k: Money.Key, side: Side)
    requires Ordered(w.log) && CountUpTo(w.log, w.checkpoint) <= j <= |w.log|
    requires Lands(w, call) && w.calls[call] == Next(w.log, w.checkpoint, j)
    ensures Drift(Moved(w, Commit(call)), k, side) == Drift(w, k, side)
  {
    NextPasses(w.log, w.checkpoint, j);
    MoveDrifts(w, Commit(call), k, side);
  }

  /** A commit of what came next at `c`, when another from there has been committed up to `i`. */
  lemma {:induction false} CommitAgain(w: Projector, c: int, i: nat, call: nat, j: nat, k: Money.Key, side: Side)
    requires Ordered(w.log) && CountUpTo(w.log, c) <= i <= |w.log| && CountUpTo(w.log, c) <= j <= |w.log|
    requires w.checkpoint == Advanced(c, Next(w.log, c, i))
    requires Lands(w, call) && w.calls[call] == Next(w.log, c, j)
    ensures Drift(Moved(w, Commit(call)), k, side)
            == Drift(w, k, side) + Net(Shorter(Next(w.log, c, i), Next(w.log, c, j)), k, side)
  {
    OverlapNet(w.log, c, i, j, k, side);
    MoveDrifts(w, Commit(call), k, side);
  }

  lemma {:induction false} OverlapIs(w: Projector, to: Option<int>, to': Option<int>)
    ensures MovedBy(w, Overlap(w, to, to'))
            == Moved(Moved(Moved(Moved(w, Begin(1, to)), Begin(1, to')), Commit(|w.calls|)), Commit(|w.calls| + 1))
  {
    var w1 := Moved(Moved(w, Begin(1, to)), Begin(1, to'));
    MovedByTwo(w, Begin(1, to), Begin(1, to'));
    MovedByTwo(w1, Commit(|w.calls|), Commit(|w.calls| + 1));
    MovedByFour(w, Begin(1, to), Begin(1, to'), Commit(|w.calls|), Commit(|w.calls| + 1));
  }

  /** Two calls that both read before either commits: the shorter batch is counted twice, and only that. */
  lemma {:induction false} OverlapDrifts(w: Projector, to: Option<int>, to': Option<int>, k: Money.Key, side: Side)
    requires Tracks(w)
    requires Fold(w.table, Due(w.log, w.checkpoint, 1, to)).Some? && Fold(w.table, Due(w.log, w.checkpoint, 1, to')).Some?
    ensures Drift(MovedBy(w, Overlap(w, to, to')), k, side)
            == Drift(w, k, side) + Net(Shorter(Due(w.log, w.checkpoint, 1, to), Due(w.log, w.checkpoint, 1, to')), k, side)
  {
    var i := StartsNext(w, to);
    var j := StartsNext(w, to');
    OverlapIs(w, to, to');
    var w1 := w.(calls := w.calls + [Next(w.log, w.checkpoint, i)] + [Next(w.log, w.checkpoint, j)]);
    assert w1 == Moved(Moved(w, Begin(1, to)), Begin(1, to'));
    assert w1.calls[|w.calls|] == Next(w.log, w.checkpoint, i) && w1.calls[|w.calls| + 1] == Next(w.log, w.checkpoint, j);
    CommitNext(w1, |w.calls|, i, k, side);
    var w2 := Moved(w1, Commit(|w.calls|));
    FoldsAnywhere(w.table, w2.table, Next(w.log, w.checkpoint, j));
    CommitAgain(w2, w.checkpoint, i, |w.calls| + 1, j, k, side);
  }

  lemma {:induction false} StartsNext(w: Projector, to: Option<int>) returns (j: nat)
    requires Tracks(w)
    ensures CountUpTo(w.log, w.checkpoint) <= j <= |w.log|
    ensures Due(w.log, w.checkpoint, 1, to) == Next(w.log, w.checkpoint, j)
  {
    assert StartOf(w.checkpoint, 1) - 1 == w.checkpoint;
    DueStands(w.log, w.checkpoint, 1, to);
    j := CountUpTo(w.log, w.checkpoint) + |Due(w.log, w.checkpoint, 1, to)|;
  }

  lemma {:induction false} MovedByFour(w: Projector, a: Move, b: Move, c: Move, d: Move)
    ensures MovedBy(w, [a, b, c, d]) == MovedBy(MovedBy(w, [a, b]), [c, d])
  {
    MovedByTwo(w, a, b);
    assert [a, b, c, d][1..] == [b, c, d] && [b, c, d][1..] == [c, d];
    assert MovedBy(Moved(w, a), [b, c, d]) == MovedBy(Moved(Moved(w, a), b), [c, d]);
  }

  /** Overlapping calls leave the projection in step exactly when the shorter batch moves no balance. */
  lemma {:induction false} OverlapInStepIff(w: Projector, to: Option<int>, to': Option<int>)
    requires Tracks(w) && InStep(w)
    requires Fold(w.table, Due(w.log, w.checkpoint, 1, to)).Some? && Fold(w.table, Due(w.log, w.checkpoint, 1, to')).Some?
    ensures InStep(MovedBy(w, Overlap(w, to, to')))
            <==> forall k, side :: Net(Shorter(Due(w.log, w.checkpoint, 1, to), Due(w.log, w.checkpoint, 1, to')), k, side) == 0
  {
    var w' := MovedBy(w, Overlap(w, to, to'));
    var twice := Shorter(Due(w.log, w.checkpoint, 1, to), Due(w.log, w.checkpoint, 1, to'));
    forall k, side ensures Drift(w', k, side) == Net(twice, k, side) {
      OverlapDrifts(w, to, to', k, side);
      assert Drift(w, k, side) == 0;
    }
    SameZeros(w', twice);
  }

  // ----- a rebuild that dies -----

  /** A rebuild that has reset the checkpoint is in step wherever it stops, and whole it is the engine's rebuild. */
  lemma {:induction false} ResetRestores(w: Projector, to: Option<int>)
    requires Ordered(w.log)
    ensures var w' := MovedBy(w, [Truncate, Reset]);
            var done := MovedBy(w', [Begin(1, to), Commit(|w.calls|)]);
            && InStep(w') && InStep(done)
            && (done.table, done.checkpoint) == (Batch(w.log, map[], 0, 1, to).0, Batch(w.log, map[], 0, 1, to).1)
  {
    var w' := MovedBy(w, [Truncate, Reset]);
    MovedByTwo(w, Truncate, Reset);
    if w.log != [] { assert w.log[|w.log| - 1].seqNo >= 1; }
    forall k, side ensures Drift(w', k, side) == 0 { ResetAdds(w.log, k, side); }
    var done := MovedBy(w', [Begin(1, to), Commit(|w.calls|)]);
    WholeCallKeepsDrift(w', to, Money.Key("", ""), Available);
    forall k, side ensures Drift(done, k, side) == 0 {
      WholeCallKeepsDrift(w', to, k, side);
      assert Drift(w', k, side) == 0;
    }
  }

  function Viewed(w: World): Projector { Projector(w.log, w.table, w.checkpoint, []) }

  predicate HasRebuild(steps: seq<Step>) { exists i :: 0 <= i < |steps| && steps[i].RunRebuild? }

  lemma {:induction false} AppendDrifts(w: World, kind: EventType, payload: Option<Payload>, gap: nat, k: Money.Key, side: Side)
    requires Tracks(Viewed(w))
    ensures var w' := Viewed(Apply(w, Append(kind, payload, gap)));
            Tracks(w') && Drift(w', k, side) == Drift(Viewed(w), k, side)
  {
    var e := Event(LastSeq(w.log) + 1 + gap, kind, payload);
    AppendOrdered(w.log, e);
    AppendUpTo(w.log, e, w.checkpoint);
    var w' := Apply(w, Append(kind, payload, gap));
    assert w' == w.(log := w.log + [e]);
    assert LastSeq(w'.log) == e.seqNo;
  }

  lemma {:induction false} BatchDrifts(w: World, to: Option<int>, k: Money.Key, side: Side)
    requires Tracks(Viewed(w))
    ensures var w' := Viewed(Apply(w, RunBatch(to))); Tracks(w') && Drift(w', k, side) == Drift(Viewed(w), k, side)
  {
    WholeCallKeepsDrift(Viewed(w), to, k, side);
  }

  lemma {:induction false} RebuildDrifts(w: World, to: Option<int>, k: Money.Key, side: Side)
    requires Tracks(Viewed(w))
    ensures var w' := Viewed(Apply(w, RunRebuild(to))); Tracks(w') && Drift(w', k, side) == 0
  {
    RebuildAgrees(w, to);
    var w' := Apply(w, RunRebuild(to));
    FoldAddsUp(map[], UpTo(w'.log, w'.checkpoint), k, side);
  }

  /** One at a time, appends and batches keep whatever drift there is; a completed rebuild removes it. */
  lemma {:induction false} ApplyDrifts(w: World, step: Step, k: Money.Key, side: Side)
    requires Tracks(Viewed(w))
    ensures var w' := Viewed(Apply(w, step));
            Tracks(w') && Drift(w', k, side) == if step.RunRebuild? then 0 else Drift(Viewed(w), k, side)
  {
    match step
    case Append(kind, payload, gap) => AppendDrifts(w, kind, payload, gap, k, side);
    case RunBatch(to) => BatchDrifts(w, to, k, side);
    case RunRebuild(to) => RebuildDrifts(w, to, k, side);
    case RolledBack =>
  }

  lemma {:induction false} StepsDrift(w: World, steps: seq<Step>, k: Money.Key, side: Side)
    requires Tracks(Viewed(w))
    ensures Drift(Viewed(Run(w, steps)), k, side) == if HasRebuild(steps) then 0 else Drift(Viewed(w), k, side)
    decreases |steps|
  {
    if steps != [] {
      ApplyDrifts(w, steps[0], k, side);
      StepsDrift(Apply(w, steps[0]), steps[1..], k, side);
      RebuildFirstOrLater(steps);
    }
  }

  lemma {:induction false} RebuildFirstOrLater(steps: seq<Step>)
    requires steps != []
    ensures HasRebuild(steps) <==> steps[0].RunRebuild? || HasRebuild(steps[1..])
  {
    if HasRebuild(steps) && !steps[0].RunRebuild? {
      var i :| 0 <= i < |steps| && steps[i].RunRebuild?;
      assert steps[1..][i - 1].RunRebuild?;
    }
    if HasRebuild(steps[1..]) {
      var i :| 0 <= i < |steps[1..]| && steps[1..][i].RunRebuild?;
      assert steps[i + 1].RunRebuild?;
    }
  }

  /**
   A rebuild that dies right after its truncation leaves the checkpoint on an empty table. Whatever is appended
   and processed afterwards, the projection is in step again exactly when a later rebuild completes, or
   the events up to that checkpoint had moved no balance.
   */
  lemma {:induction false} TruncatedInStepIff(w: World, steps: seq<Step>)
    requires Agrees(w)
    ensures InStep(Viewed(Run(w.(table := map[]), steps)))
            <==> HasRebuild(steps) || forall k, side :: Net(UpTo(w.log, w.checkpoint), k, side) == 0
  {
    var lost := UpTo(w.log, w.checkpoint);
    var end := Viewed(Run(w.(table := map[]), steps));
    forall k, side ensures Drift(end, k, side) == if HasRebuild(steps) then 0 else -Net(lost, k, side) {
      StepsDrift(w.(table := map[]), steps, k, side);
    }
    if !HasRebuild(steps) { SameZeros(end, lost); }
  }
}
