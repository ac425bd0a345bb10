/**
 The append-only event store kept in memory: two maps and a counter. Sequence numbers are
 strictly increasing, appending an event twice is a no-op, and replay returns the stored
 events, from a cursor, in the order they were appended.
 */
module EventStore {
  import opened Wrappers

  type Id = string

  /** An event; `hint` is the sequence number its metadata may carry. */
  datatype LedgerEvent = LedgerEvent(id: Id, aggregate: string, hint: Option<int>)

  /** One entry of the map from sequence numbers to ids, which iterates in insertion order. */
  datatype Slot = Slot(seqNo: int, id: Id)

  datatype AppendResult = AppendResult(eventId: Id, sequence: int, created: bool)

  function Assigned(e: LedgerEvent, nextSeq: int): int {
    if e.hint.Some? && e.hint.value >= nextSeq then e.hint.value else nextSeq
  }

  /** The sequence number stored for an id: that of the first slot holding it. */
  function FindSequence(slots: seq<Slot>, id: Id): int {
    if slots == [] then 0 else if slots[0].id == id then slots[0].seqNo else FindSequence(slots[1..], id)
  }

  predicate Selected(s: Slot, e: LedgerEvent, from: int, aggregate: Option<string>) {
    s.seqNo >= from && (aggregate.None? || aggregate.value == "" || e.aggregate == aggregate.value)
  }

  ghost predicate Stored(slots: seq<Slot>, events: map<Id, LedgerEvent>) {
    && (forall i :: 0 <= i < |slots| ==> slots[i].id in events && events[slots[i].id].id == slots[i].id)
    && (forall i, j :: 0 <= i < j < |slots| ==> slots[i].seqNo < slots[j].seqNo && slots[i].id != slots[j].id)
  }

  ghost predicate HasSlot(slots: seq<Slot>, id: Id) { exists i :: 0 <= i < |slots| && slots[i].id == id }

  ghost predicate Indexed(slots: seq<Slot>, events: map<Id, LedgerEvent>) {
    forall id :: id in events ==> HasSlot(slots, id)
  }

  ghost predicate Below(slots: seq<Slot>, nextSeq: int) {
    nextSeq >= 1 && forall i :: 0 <= i < |slots| ==> 1 <= slots[i].seqNo < nextSeq
  }

  /** The ids a replay selects, in append order. */
  function Selection(slots: seq<Slot>, events: map<Id, LedgerEvent>, from: int, aggregate: Option<string>): seq<Id> {
    if slots == [] then []
    else
      var last := slots[|slots| - 1];
      var before := Selection(slots[..|slots| - 1], events, from, aggregate);
      if last.id in events && Selected(last, events[last.id], from, aggregate) then before + [last.id] else before
  }

  /** A missing limit and the limit 0 both mean everything. */
  function Limited<T>(xs: seq<T>, limit: nat): seq<T> {
    if limit == 0 || limit >= |xs| then xs else xs[..limit]
  }

  class Store {
    var events: map<Id, LedgerEvent>
    var bySequence: seq<Slot>
    var nextSeq: int

    ghost predicate Valid()
      reads this
    {
      Stored(bySequence, events) && Indexed(bySequence, events) && Below(bySequence, nextSeq)
    }

    constructor ()
      ensures Valid() && bySequence == [] && events == map[]
    {
      events, bySequence, nextSeq := map[], [], 1;
    }

    /** `append`: a known id changes nothing and reports the number it has; a new one gets a number above all others. */
    method Append(e: LedgerEvent) returns (r: AppendResult)
      requires Valid()
      modifies this
      ensures Valid()
      ensures r.created <==> e.id !in old(events)
      ensures r.created ==>
                && r == AppendResult(e.id, Assigned(e, old(nextSeq)), true)
                && bySequence == old(bySequence) + [Slot(r.sequence, e.id)] && events == old(events)[e.id := e]
                && nextSeq == r.sequence + 1
      ensures !r.created ==>
                && r.eventId == e.id && Slot(r.sequence, e.id) in bySequence
                && events == old(events) && bySequence == old(bySequence) && nextSeq == old(nextSeq)
    {
      if e.id in events {
        assert HasSlot(bySequence, e.id);
        FindSequenceFinds(bySequence, e.id);
        return AppendResult(e.id, FindSequence(bySequence, e.id), false);
      }
      var sequence := if e.hint.Some? then (if e.hint.value >= nextSeq then e.hint.value else nextSeq) else nextSeq;
      events := events[e.id := e];
      bySequence := bySequence + [Slot(sequence, e.id)];
      if sequence >= nextSeq { nextSeq := sequence + 1; }
      AppendStored(old(bySequence), old(events), old(nextSeq), e);
      return AppendResult(e.id, sequence, true);
    }

    /** `appendMany`: afterwards every one of the events is stored under the number reported, and nothing stored before has changed. */
    method AppendMany(es: seq<LedgerEvent>) returns (results: seq<AppendResult>)
      requires Valid()
      modifies this
      ensures Valid() && Extends(old(bySequence), old(events), bySequence, events)
      ensures |results| == |es|
      ensures forall i :: 0 <= i < |es| ==> Recorded(results[i], es[i], bySequence)
      ensures |bySequence| == |old(bySequence)| + |Created(results)|
    {
      results := [];
      for n := 0 to |es|
        invariant Valid() && Extends(old(bySequence), old(events), bySequence, events)
        invariant |results| == n
        invariant forall i :: 0 <= i < n ==> Recorded(results[i], es[i], bySequence)
        invariant |bySequence| == |old(bySequence)| + |Created(results)|
      {
        ghost var before, slots, stored := results, bySequence, events;
        var r := Append(es[n]);
        results := results + [r];
        CreatedGrows(before, r);
        assert Extends(slots, stored, bySequence, events);
        ExtendsTransitive(old(bySequence), old(events), slots, stored, bySequence, events);
        forall i | 0 <= i < n + 1 ensures Recorded(results[i], es[i], bySequence) {
          if i < n { assert Recorded(before[i], es[i], slots); }
        }
      }
    }

    /** `replay`: collect what is selected, sort it by sequence number, cut it at the limit, look the events up. */
    method Replay(from: int, aggregate: Option<string>, limit: nat) returns (r: seq<LedgerEvent>)
      requires Valid()
      ensures var ids := Selection(bySequence, events, from, aggregate);
              && |r| <= |ids| && (|r| < |ids| ==> 0 < limit == |r|) && (0 < limit ==> |r| <= limit)
              && forall i :: 0 <= i < |r| ==> ids[i] in events && r[i] == events[ids[i]]
    {
      var ids: seq<Id> := [];
      for n := 0 to |bySequence|
        invariant ids == Selection(bySequence[..n], events, from, aggregate)
      {
        var s := bySequence[n];
        SelectionNext(bySequence, events, from, aggregate, n);
        if Selected(s, events[s.id], from, aggregate) { ids := ids + [s.id]; }
      }
      assert bySequence[..|bySequence|] == bySequence;
      SelectionSorted(bySequence, events, from, aggregate);
      ids := SortBySequence(bySequence, ids);
      ids := Limited(ids, limit);
      r := LookUp(ids);
    }

    method LookUp(ids: seq<Id>) returns (r: seq<LedgerEvent>)
      requires forall id :: id in ids ==> id in events
      ensures |r| == |ids| && forall i :: 0 <= i < |r| ==> r[i] == events[ids[i]]
    {
      r := [];
      for n := 0 to |ids|
        invariant |r| == n && forall i :: 0 <= i < n ==> r[i] == events[ids[i]]
      {
        r := r + [events[ids[n]]];
      }
    }
  }

  lemma SelectionNext(slots: seq<Slot>, events: map<Id, LedgerEvent>, from: int, aggregate: Option<string>, n: nat)
    requires n < |slots| && slots[n].id in events
    ensures Selection(slots[..n + 1], events, from, aggregate)
            == Selection(slots[..n], events, from, aggregate)
               + (if Selected(slots[n], events[slots[n].id], from, aggregate) then [slots[n].id] else [])
  {
    assert slots[..n + 1][..n] == slots[..n];
  }

  lemma {:induction false} FindSequenceFinds(slots: seq<Slot>, id: Id)
    requires HasSlot(slots, id)
    ensures Slot(FindSequence(slots, id), id) in slots
    decreases |slots|
  {
    if slots[0].id != id {
      var i :| 0 <= i < |slots| && slots[i].id == id;
      assert slots[1..][i - 1].id == id;
      FindSequenceFinds(slots[1..], id);
    }
  }

  /** In a store a slot's number is what `findSequence` reports for its id. */
  lemma {:induction false} FindSequenceAt(slots: seq<Slot>, i: nat)
    requires i < |slots|
    requires forall i, j :: 0 <= i < j < |slots| ==> slots[i].id != slots[j].id
    ensures FindSequence(slots, slots[i].id) == slots[i].seqNo
    decreases |slots|
  {
    if i > 0 {
      assert slots[1..][i - 1] == slots[i];
      FindSequenceAt(slots[1..], i - 1);
    }
  }

  lemma AppendStored(slots: seq<Slot>, events: map<Id, LedgerEvent>, nextSeq: int, e: LedgerEvent)
    requires Stored(slots, events) && Indexed(slots, events) && Below(slots, nextSeq) && e.id !in events
    ensures var n := Assigned(e, nextSeq); var slots' := slots + [Slot(n, e.id)];
            Stored(slots', events[e.id := e]) && Indexed(slots', events[e.id := e]) && Below(slots', n + 1)
  {
    var n := Assigned(e, nextSeq);
    var slots', events' := slots + [Slot(n, e.id)], events[e.id := e];
    forall id | id in events' ensures HasSlot(slots', id) {
      if id == e.id {
        assert slots'[|slots|].id == id;
      } else {
        assert HasSlot(slots, id);
        var i :| 0 <= i < |slots| && slots[i].id == id;
        assert slots'[i].id == id;
      }
    }
  }

  ghost predicate Extends(slots: seq<Slot>, events: map<Id, LedgerEvent>, slots': seq<Slot>, events': map<Id, LedgerEvent>) {
    slots <= slots' && forall id :: id in events ==> id in events' && events'[id] == events[id]
  }

  lemma ExtendsTransitive(s0: seq<Slot>, e0: map<Id, LedgerEvent>, s1: seq<Slot>, e1: map<Id, LedgerEvent>, s2: seq<Slot>, e2: map<Id, LedgerEvent>)
    requires Extends(s0, e0, s1, e1) && Extends(s1, e1, s2, e2)
    ensures Extends(s0, e0, s2, e2)
  {}

  predicate Recorded(r: AppendResult, e: LedgerEvent, slots: seq<Slot>) {
    r.eventId == e.id && Slot(r.sequence, e.id) in slots
  }

  function Created(results: seq<AppendResult>): set<int> {
    set i | 0 <= i < |results| && results[i].created
  }

  lemma CreatedGrows(before: seq<AppendResult>, r: AppendResult)
    ensures |Created(before + [r])| == |Created(before)| + (if r.created then 1 else 0)
  {
    assert Created(before + [r]) == Created(before) + (if r.created then {|before|} else {});
  }

  // ----- sorting -----

  function InsertBySequence(slots: seq<Slot>, id: Id, ids: seq<Id>): seq<Id> {
    if ids == [] then [id]
    else if FindSequence(slots, id) <= FindSequence(slots, ids[0]) then [id] + ids
    else [ids[0]] + InsertBySequence(slots, id, ids[1..])
  }

  /** The stable sort of ids by the sequence number stored for them. */
  function SortBySequence(slots: seq<Slot>, ids: seq<Id>): seq<Id> {
    if ids == [] then [] else InsertBySequence(slots, ids[0], SortBySequence(slots, ids[1..]))
  }

  ghost predicate InOrder(slots: seq<Slot>, ids: seq<Id>) {
    forall i, j :: 0 <= i < j < |ids| ==> FindSequence(slots, ids[i]) <= FindSequence(slots, ids[j])
  }

  lemma {:induction false} SortedStays(slots: seq<Slot>, ids: seq<Id>)
    requires InOrder(slots, ids)
    ensures SortBySequence(slots, ids) == ids
    decreases |ids|
  {
    if ids != [] {
      assert InOrder(slots, ids[1..]);
      SortedStays(slots, ids[1..]);
      if |ids| > 1 { assert FindSequence(slots, ids[0]) <= FindSequence(slots, ids[1]); }
    }
  }

  /** The selected ids are those of a subsequence of the slots, so they are already in order, and stored. */
  lemma {:induction false} SelectionIndices(slots: seq<Slot>, events: map<Id, LedgerEvent>, from: int, aggregate: Option<string>, n: nat)
    returns (at: seq<nat>)
    requires n <= |slots|
    ensures |at| == |Selection(slots[..n], events, from, aggregate)|
    ensures forall i :: 0 <= i < |at| ==> at[i] < n && slots[at[i]].id == Selection(slots[..n], events, from, aggregate)[i]
    ensures forall i :: 0 <= i < |at| ==> slots[at[i]].id in events
    ensures forall i, j :: 0 <= i < j < |at| ==> at[i] < at[j]
    decreases n
  {
    if n == 0 {
      at := [];
    } else {
      assert slots[..n][..n - 1] == slots[..n - 1];
      at := SelectionIndices(slots, events, from, aggregate, n - 1);
      var last := slots[n - 1];
      if last.id in events && Selected(last, events[last.id], from, aggregate) { at := at + [n - 1]; }
    }
  }

  lemma SelectionSorted(slots: seq<Slot>, events: map<Id, LedgerEvent>, from: int, aggregate: Option<string>)
    requires Stored(slots, events)
    ensures var ids := Selection(slots, events, from, aggregate);
            SortBySequence(slots, ids) == ids && forall i :: 0 <= i < |ids| ==> ids[i] in events
  {
    var ids := Selection(slots, events, from, aggregate);
    assert slots[..|slots|] == slots;
    var at := SelectionIndices(slots, events, from, aggregate, |slots|);
    forall i, j | 0 <= i < j < |ids| ensures FindSequence(slots, ids[i]) <= FindSequence(slots, ids[j]) {
      FindSequenceAt(slots, at[i]);
      FindSequenceAt(slots, at[j]);
    }
    SortedStays(slots, ids);
  }

  // ----- what a replay contains -----

  /** An event is replayed exactly when it is stored at or after the cursor and belongs to the aggregate asked for. */
  lemma {:induction false} SelectionExact(slots: seq<Slot>, events: map<Id, LedgerEvent>, from: int, aggregate: Option<string>, id: Id)
    requires Stored(slots, events)
    ensures id in Selection(slots, events, from, aggregate)
            <==> exists i :: 0 <= i < |slots| && slots[i].id == id && from <= slots[i].seqNo
                   && match aggregate
                      case None => true
                      case Some(name) => name == "" || events[slots[i].id].aggregate == name
    decreases |slots|
  {
    if slots != [] {
      var n := |slots| - 1;
      assert forall i :: 0 <= i < n ==> slots[..n][i] == slots[i];
      SelectionExact(slots[..n], events, from, aggregate, id);
      assert slots[n].id in events;
    }
  }

  /** A replay from the first number, unfiltered, is the whole log in append order. */
  lemma {:induction false} SelectionOfAll(slots: seq<Slot>, events: map<Id, LedgerEvent>)
    requires Stored(slots, events) && forall i :: 0 <= i < |slots| ==> slots[i].seqNo >= 1
    ensures |Selection(slots, events, 1, None)| == |slots|
    ensures forall i :: 0 <= i < |slots| ==> Selection(slots, events, 1, None)[i] == slots[i].id
    decreases |slots|
  {
    if slots != [] {
      var n := |slots| - 1;
      assert forall i :: 0 <= i < n ==> slots[..n][i] == slots[i];
      SelectionOfAll(slots[..n], events);
      assert slots[n].id in events;
    }
  }
}
