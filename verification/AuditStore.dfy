/** The append-only audit table: its idempotent insert and its keyset query. */
module AuditStore {
  import opened Values

  /** An instant; the unset time is the zero time of the host language. */
  type Time = int

  const UNSET: Time := 0

  /** A 128-bit identifier, ordered as a number; zero is the nil identifier. */
  type Id = nat

  const NIL: Id := 0

  datatype Event = Event(
    id: Id,
    time: Time,
    kind: string,
    service: string,
    entityType: string,
    entityId: string,
    trace: string,
    actor: string,
    payload: string)

  // ---- The table -----------------------------------------------------------------------------

  /** The primary key is the time together with the identifier. */
  predicate SameKey(a: Event, b: Event) {
    a.time == b.time && a.id == b.id
  }

  predicate HasKey(rows: seq<Event>, e: Event) {
    exists i :: 0 <= i < |rows| && SameKey(rows[i], e)
  }

  predicate HasId(rows: seq<Event>, id: Id) {
    exists i :: 0 <= i < |rows| && rows[i].id == id
  }

  ghost predicate UniqueKeys(rows: seq<Event>) {
    forall i, j :: 0 <= i < j < |rows| ==> !SameKey(rows[i], rows[j])
  }

  function Insert(rows: seq<Event>, e: Event): seq<Event> {
    if HasKey(rows, e) then rows else rows + [e]
  }

  /** One insert statement with ON CONFLICT DO NOTHING. */
  function InsertAll(rows: seq<Event>, events: seq<Event>): seq<Event>
    decreases |events|
  {
    if events == [] then rows
    else Insert(InsertAll(rows, events[..|events| - 1]), events[|events| - 1])
  }

  lemma PrefixKeepsKeys(rows: seq<Event>, more: seq<Event>, e: Event)
    requires rows <= more && HasKey(rows, e)
    ensures HasKey(more, e)
  {
    var i :| 0 <= i < |rows| && SameKey(rows[i], e);
    assert SameKey(more[i], e);
  }

  lemma PrefixKeepsIds(rows: seq<Event>, more: seq<Event>, id: Id)
    requires rows <= more && HasId(rows, id)
    ensures HasId(more, id)
  {
    var i :| 0 <= i < |rows| && rows[i].id == id;
    assert more[i].id == id;
  }

  lemma KeyGivesId(rows: seq<Event>, e: Event)
    requires HasKey(rows, e)
    ensures HasId(rows, e.id)
  {
  }

  lemma InsertKeeps(rows: seq<Event>, e: Event)
    ensures rows <= Insert(rows, e) && HasKey(Insert(rows, e), e)
    ensures UniqueKeys(rows) ==> UniqueKeys(Insert(rows, e))
  {
    var after := Insert(rows, e);
    if !HasKey(rows, e) { assert SameKey(after[|rows|], e); }
  }

  /** An insert only appends, stores every event, and keeps the keys unique. */
  lemma {:induction false} InsertAllKeeps(rows: seq<Event>, events: seq<Event>)
    ensures rows <= InsertAll(rows, events)
    ensures forall k :: 0 <= k < |events| ==> HasKey(InsertAll(rows, events), events[k])
    ensures UniqueKeys(rows) ==> UniqueKeys(InsertAll(rows, events))
    decreases |events|
  {
    if events != [] {
      var n := |events| - 1;
      var before := InsertAll(rows, events[..n]);
      InsertAllKeeps(rows, events[..n]);
      InsertKeeps(before, events[n]);
      forall k | 0 <= k < |events| ensures HasKey(InsertAll(rows, events), events[k]) {
        if k < n {
          assert events[..n][k] == events[k];
          PrefixKeepsKeys(before, InsertAll(rows, events), events[k]);
        }
      }
    }
  }

  /** Every row an insert adds is one of the events. */
  lemma {:induction false} InsertedFrom(rows: seq<Event>, events: seq<Event>, i: nat)
    requires i < |InsertAll(rows, events)|
    ensures (i < |rows| && InsertAll(rows, events)[i] == rows[i]) || InsertAll(rows, events)[i] in events
    decreases |events|
  {
    if events != [] {
      var n := |events| - 1;
      if i < |InsertAll(rows, events[..n])| { InsertedFrom(rows, events[..n], i); }
    }
  }

  /** Events that are all stored change nothing: a retried batch is a no-op. */
  lemma {:induction false} StoredIsNoOp(rows: seq<Event>, events: seq<Event>)
    requires forall k :: 0 <= k < |events| ==> HasKey(rows, events[k])
    ensures InsertAll(rows, events) == rows
    decreases |events|
  {
    if events != [] { StoredIsNoOp(rows, events[..|events| - 1]); }
  }

  lemma RetryIsNoOp(rows: seq<Event>, events: seq<Event>)
    ensures InsertAll(InsertAll(rows, events), events) == InsertAll(rows, events)
  {
    InsertAllKeeps(rows, events);
    StoredIsNoOp(InsertAll(rows, events), events);
  }

  /** What became of an insert: committed, not committed, or committed with the answer lost. */
  datatype Commit = Committed | Refused | Unsure

  class Store {
    var rows: seq<Event>

    constructor ()
      ensures rows == []
    {
      rows := [];
    }

    /** The group commit: all the events or none of them. */
    method InsertBatch(events: seq<Event>, commit: Commit) returns (r: Result<nat>)
      modifies this
      ensures rows == if commit == Refused then old(rows) else InsertAll(old(rows), events)
      ensures r == if commit == Committed then Ok(|rows| - |old(rows)|) else Err(Internal)
    {
      if commit == Refused {
        return Err(Internal);
      }
      ghost var before := rows;
      InsertAllKeeps(before, events);
      var added := 0;
      var i := 0;
      while i < |events|
        invariant 0 <= i <= |events| && rows == InsertAll(before, events[..i])
        invariant |rows| == |before| + added
      {
        assert events[..i + 1][..i] == events[..i];
        if !HasKey(rows, events[i]) {
          rows := rows + [events[i]];
          added := added + 1;
        }
        i := i + 1;
      }
      assert events[..i] == events;
      return if commit == Committed then Ok(added) else Err(Internal);
    }
  }
}
