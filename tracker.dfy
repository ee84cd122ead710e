/**
 * The duplicate-event tracker of OonoAkira (oono_akira/oono.py:181-195):
 * a FIFO of event ids capped at 1024 entries, kept next to a table from id
 * to the name of the module that processed it (None while unknown).
 *
 * This module holds the abstract state and its transition function; the
 * class OonoAkira in module Oono keeps the same state in fields and updates
 * it in place.
 */
module Tracker {
  import opened Wrappers

  /** PAYLOAD_TRACKER_SIZE */
  const PayloadTrackerSize: nat := 1024

  /** What `_track_payload` returns: `True`/`False`, or the stored marker of a repeated id. */
  datatype TrackResult = Flag(b: bool) | Previous(marker: Option<string>)

  /** The deque `_payload_queue` and the dict `_payload_mapping`. */
  datatype TrackerState = TrackerState(queue: seq<string>, mapping: map<string, Option<string>>)

  /** One call `_track_payload(id, processor, update)`. */
  datatype Call = Call(id: string, processor: Option<string>, update: bool)

  const Empty := TrackerState([], map[])

  predicate NoDuplicates(q: seq<string>) {
    forall i, j :: 0 <= i < j < |q| ==> q[i] != q[j]
  }

  /** The bounded-buffer-plus-table invariant. */
  predicate TrackerValid(st: TrackerState) {
    && |st.queue| <= PayloadTrackerSize
    && NoDuplicates(st.queue)
    && st.mapping.Keys == set id | id in st.queue
  }

  /** One call of `_track_payload`: the new state and the returned value. */
  function Track(st: TrackerState, id: string, processor: Option<string>, update: bool): (TrackerState, TrackResult) {
    if update then
      if id !in st.mapping then (st, Flag(false))
      else (TrackerState(st.queue, st.mapping[id := processor]), Flag(true))
    else if id in st.mapping then
      (st, Previous(st.mapping[id]))
    else
      var q := st.queue + [id];
      var m := st.mapping[id := processor];
      if |q| > PayloadTrackerSize then (TrackerState(q[1..], m - {q[0]}), Flag(true))
      else (TrackerState(q, m), Flag(true))
  }

  function Step(st: TrackerState, c: Call): TrackerState {
    Track(st, c.id, c.processor, c.update).0
  }

  /** The state after a sequence of calls. */
  function TrackAll(st: TrackerState, calls: seq<Call>): TrackerState
    decreases |calls|
  {
    if calls == [] then st else TrackAll(Step(st, calls[0]), calls[1..])
  }

  /** Whether a call inserts a new id (the only kind of call that can evict). */
  predicate Inserts(st: TrackerState, c: Call) {
    !c.update && c.id !in st.mapping
  }

  /** How many calls of the sequence insert a new id. */
  function Insertions(st: TrackerState, calls: seq<Call>): nat
    decreases |calls|
  {
    if calls == [] then 0
    else (if Inserts(st, calls[0]) then 1 else 0) + Insertions(Step(st, calls[0]), calls[1..])
  }

  /** Appending an id that is not queued yet keeps the queue duplicate-free. */
  lemma SnocNoDuplicates(q: seq<string>, id: string)
    requires NoDuplicates(q) && id !in q
    ensures NoDuplicates(q + [id])
    ensures forall k :: k in q + [id] <==> k in q || k == id
  {
  }

  /** Dropping the head of a duplicate-free queue removes exactly the head's id. */
  lemma TailMembers(q: seq<string>)
    requires |q| > 0 && NoDuplicates(q)
    ensures NoDuplicates(q[1..])
    ensures forall k :: k in q[1..] <==> k in q && k != q[0]
  {
    forall k | k in q[1..] ensures k in q && k != q[0] {
      var j :| 0 <= j < |q[1..]| && q[1..][j] == k;
      assert q[j + 1] == k;
    }
    forall k | k in q && k != q[0] ensures k in q[1..] {
      var j :| 0 <= j < |q| && q[j] == k;
      assert j != 0;
      assert q[1..][j - 1] == k;
    }
  }

  /** Every call keeps the invariant. */
  lemma TrackKeepsValid(st: TrackerState, id: string, processor: Option<string>, update: bool)
    requires TrackerValid(st)
    ensures TrackerValid(Track(st, id, processor, update).0)
  {
    if !update && id !in st.mapping {
      var q := st.queue + [id];
      SnocNoDuplicates(st.queue, id);
      if |q| > PayloadTrackerSize {
        TailMembers(q);
      }
    }
  }

  /** After any sequence of calls from a valid state the invariant still holds, so the queue never exceeds 1024 ids. */
  lemma {:induction false} TrackAllValid(st: TrackerState, calls: seq<Call>)
    requires TrackerValid(st)
    ensures TrackerValid(TrackAll(st, calls))
    ensures |TrackAll(st, calls).queue| <= PayloadTrackerSize
    decreases |calls|
  {
    if calls != [] {
      TrackKeepsValid(st, calls[0].id, calls[0].processor, calls[0].update);
      TrackAllValid(Step(st, calls[0]), calls[1..]);
    }
  }

  /** First sighting: the id goes to the tail with the given marker and the call returns True. */
  lemma FirstSighting(st: TrackerState, id: string, processor: Option<string>)
    requires TrackerValid(st) && id !in st.mapping
    ensures var (st', r) := Track(st, id, processor, false);
      && r == Flag(true)
      && st'.queue == (if |st.queue| < PayloadTrackerSize then st.queue else st.queue[1..]) + [id]
      && id in st'.mapping && st'.mapping[id] == processor
      && (forall k :: k in st'.mapping && k != id ==> k in st.mapping && st'.mapping[k] == st.mapping[k])
  {
    if |st.queue| == PayloadTrackerSize {
      assert (st.queue + [id])[1..] == st.queue[1..] + [id];
    }
  }

  /** A repeated sighting returns the stored marker and changes nothing. */
  lemma RepeatSighting(st: TrackerState, id: string, processor: Option<string>)
    requires id in st.mapping
    ensures Track(st, id, processor, false) == (st, Previous(st.mapping[id]))
  {
  }

  /**
   * An update of an unknown id returns False and changes nothing; of a known
   * id it overwrites the marker, returns True and leaves the queue alone.
   */
  lemma UpdateMarker(st: TrackerState, id: string, processor: Option<string>)
    ensures id !in st.mapping ==> Track(st, id, processor, true) == (st, Flag(false))
    ensures id in st.mapping ==>
      var (st', r) := Track(st, id, processor, true);
      r == Flag(true) && st'.queue == st.queue && st'.mapping == st.mapping[id := processor]
  {
  }

  /**
   * Eviction is pure FIFO: when the queue is full, inserting a new id drops
   * exactly the oldest-inserted id, whatever lookups or updates happened to it.
   */
  lemma EvictsOldest(st: TrackerState, id: string, processor: Option<string>)
    requires TrackerValid(st) && |st.queue| == PayloadTrackerSize && id !in st.mapping
    ensures var st' := Track(st, id, processor, false).0;
      && st'.queue == st.queue[1..] + [id]
      && st.queue[0] !in st'.mapping
      && (forall k :: k in st.mapping && k != st.queue[0] ==> k in st'.mapping)
  {
    FirstSighting(st, id, processor);
    TrackKeepsValid(st, id, processor, false);
    var st' := Track(st, id, processor, false).0;
    forall k | k in st.mapping && k != st.queue[0] ensures k in st'.mapping {
      var j :| 0 <= j < |st.queue| && st.queue[j] == k;
      assert st'.queue[j - 1] == k;
    }
  }

  /**
   * One call moves an id at position i of the queue by at most one place
   * towards the head, and only when the call inserts a new id.
   */
  lemma StepKeepsId(st: TrackerState, c: Call, i: nat) returns (j: nat)
    requires TrackerValid(st) && i < |st.queue|
    requires PayloadTrackerSize - |st.queue| + i >= (if Inserts(st, c) then 1 else 0)
    ensures var st' := Step(st, c);
      && j < |st'.queue| && st'.queue[j] == st.queue[i]
      && PayloadTrackerSize - |st'.queue| + j == PayloadTrackerSize - |st.queue| + i - (if Inserts(st, c) then 1 else 0)
  {
    var st' := Step(st, c);
    if Inserts(st, c) {
      if |st.queue| == PayloadTrackerSize {
        j := i - 1;
        assert st'.queue == (st.queue + [c.id])[1..];
      } else {
        j := i;
      }
    } else {
      j := i;
    }
  }

  /**
   * The recency window: an id at position i stays tracked through any run of
   * calls that inserts at most `1024 - |queue| + i` new ids, so a redelivery
   * within that window is still recognised as a duplicate.
   */
  lemma {:induction false} StaysTracked(st: TrackerState, calls: seq<Call>, i: nat)
    requires TrackerValid(st) && i < |st.queue|
    requires Insertions(st, calls) <= PayloadTrackerSize - |st.queue| + i
    ensures st.queue[i] in TrackAll(st, calls).mapping
    decreases |calls|
  {
    if calls == [] {
    } else {
      var j := StepKeepsId(st, calls[0], i);
      TrackKeepsValid(st, calls[0].id, calls[0].processor, calls[0].update);
      StaysTracked(Step(st, calls[0]), calls[1..], j);
    }
  }
}
