/** Writing and reading the audit log together. */
module AuditLog {
  import opened Values
  import opened AuditStore
  import opened Keyset
  import Ingest = AuditIngest

  /** A client's request, and what the write path does before the next one. */
  datatype Visit = Visit(size: int, meanwhile: seq<Ingest.Step>)

  predicate Possible(max: nat, s: Ingest.State, visits: seq<Visit>)
    requires max > 0
    decreases |visits|
  {
    visits == [] ||
    (Ingest.Possible(max, s, visits[0].meanwhile) &&
     Possible(max, Ingest.Run(max, s, visits[0].meanwhile), visits[1..]))
  }

  /** The tables the requests find. */
  function Fetches(max: nat, s: Ingest.State, visits: seq<Visit>): (fetches: seq<Fetch>)
    requires max > 0 && Possible(max, s, visits)
    ensures |fetches| == |visits|
    ensures visits != [] ==> fetches[0].rows == s.rows
    decreases |visits|
  {
    if visits == [] then []
    else
      [Fetch(s.rows, visits[0].size)]
      + Fetches(max, Ingest.Run(max, s, visits[0].meanwhile), visits[1..])
  }

  lemma IngestedTimed(max: nat, s: Ingest.State, f: Filter)
    requires Ingest.Inv(max, s)
    ensures Timed(s.rows, f)
  {
    forall e | e in s.rows && Matches(f, e) ensures e.time != UNSET {
      var i :| 0 <= i < |s.rows| && s.rows[i] == e;
      assert Ingest.WellFormed(s.rows[i]);
    }
  }

  /** The tables that a client of a running write path finds meet what walks need. */
  lemma {:induction false} FetchesFit(max: nat, s: Ingest.State, visits: seq<Visit>, f: Filter)
    requires max > 0 && Ingest.Inv(max, s) && Possible(max, s, visits)
    ensures AllTimed(Fetches(max, s, visits), f) && Growing(Fetches(max, s, visits))
    decreases |visits|
  {
    if visits != [] {
      var next := Ingest.Run(max, s, visits[0].meanwhile);
      var rest := Fetches(max, next, visits[1..]);
      Ingest.RunInv(max, s, visits[0].meanwhile);
      Ingest.RowsOnlyAppended(max, s, visits[0].meanwhile);
      IngestedTimed(max, s, f);
      FetchesFit(max, next, visits[1..], f);
      var all := Fetches(max, s, visits);
      forall i | 0 < i < |all| ensures all[i - 1].rows <= all[i].rows {
        if i > 1 { assert rest[i - 2].rows <= rest[i - 1].rows; }
      }
    }
  }

  /** The tables the requests find are all first parts of the table at the end. */
  function Final(max: nat, s: Ingest.State, visits: seq<Visit>): Ingest.State
    requires max > 0 && Possible(max, s, visits)
    decreases |visits|
  {
    if visits == [] then s else Final(max, Ingest.Run(max, s, visits[0].meanwhile), visits[1..])
  }

  lemma {:induction false} FetchedFromFinal(max: nat, s: Ingest.State, visits: seq<Visit>, i: nat)
    requires max > 0 && Possible(max, s, visits) && i < |visits|
    ensures Fetches(max, s, visits)[i].rows <= Final(max, s, visits).rows
    decreases |visits|
  {
    var next := Ingest.Run(max, s, visits[0].meanwhile);
    Ingest.RowsOnlyAppended(max, s, visits[0].meanwhile);
    if i > 0 {
      FetchedFromFinal(max, next, visits[1..], i - 1);
    } else if |visits| > 1 {
      FetchedFromFinal(max, next, visits[1..], 0);
    } else {
      assert Final(max, next, visits[1..]) == next;
    }
  }

  /** Every event a walk shows is a stored row and matches. */
  lemma ShownIsStored(max: nat, s: Ingest.State, visits: seq<Visit>, f: Filter, e: Event)
    requires max > 0 && Ingest.Inv(max, s) && Possible(max, s, visits)
    requires e in Walk(Fetches(max, s, visits), f, TOP)
    ensures e in Final(max, s, visits).rows && Matches(f, e)
  {
    var fetches, final := Fetches(max, s, visits), Final(max, s, visits).rows;
    FetchesFit(max, s, visits, f);
    WalkShowsRows(fetches, f, TOP, e);
    WalkDescends(fetches, f, TOP);
    FetchedFromFinal(max, s, visits, |visits| - 1);
    var last := fetches[|visits| - 1].rows;
    var i :| 0 <= i < |last| && last[i] == e;
    assert final[i] == e;
  }

  /** A row that is stored when a walk begins, and matches, is shown by the walk when it ends. */
  lemma StoredIsShown(max: nat, s: Ingest.State, visits: seq<Visit>, f: Filter, i: nat)
    requires max > 0 && Ingest.Inv(max, s) && Possible(max, s, visits)
    requires i < |s.rows| && Matches(f, s.rows[i]) && Ends(Fetches(max, s, visits), f, TOP)
    ensures s.rows[i] in Walk(Fetches(max, s, visits), f, TOP) && UniqueKeys(Walk(Fetches(max, s, visits), f, TOP))
  {
    FetchesFit(max, s, visits, f);
    WalkDescends(Fetches(max, s, visits), f, TOP);
    WalkMissesNothing(Fetches(max, s, visits), f, TOP, s.rows[i]);
  }

  /** End to end: once Ingest has acknowledged an event, a walk that begins later and ends shows a row with
      the event's identifier, and with its key unless the dedup store answered, if such rows match the filter,
      whatever is written meanwhile; and it shows no key twice. */
  lemma AcknowledgedIsShown(max: nat, before: seq<Ingest.Step>, visits: seq<Visit>, f: Filter, c: nat)
    requires max > 0 && Ingest.Possible(max, Ingest.Start(), before)
    requires Possible(max, Ingest.Run(max, Ingest.Start(), before), visits)
    requires var s := Ingest.Run(max, Ingest.Start(), before);
             && c < |s.calls| && s.calls[c].phase == Ingest.Returned(None)
             && (forall e :: e in s.rows && e.id == s.calls[c].event.id && (!s.calls[c].hit ==> SameKey(e, s.calls[c].event)) ==>
                   Matches(f, e))
             && Ends(Fetches(max, s, visits), f, TOP)
    ensures var s := Ingest.Run(max, Ingest.Start(), before);
            var walk := Walk(Fetches(max, s, visits), f, TOP);
            HasId(walk, s.calls[c].event.id) && (!s.calls[c].hit ==> HasKey(walk, s.calls[c].event)) && UniqueKeys(walk)
  {
    var s := Ingest.Run(max, Ingest.Start(), before);
    var event := s.calls[c].event;
    Ingest.StartInv(max);
    Ingest.RunInv(max, Ingest.Start(), before);
    Ingest.NilMeansStored(max, before);
    var i :| 0 <= i < |s.rows| && s.rows[i].id == event.id && (!s.calls[c].hit ==> SameKey(s.rows[i], event));
    StoredIsShown(max, s, visits, f, i);
  }

  /** When every delivery of the event carries its time, the walk shows its key also if the dedup store
      answered. */
  lemma AcknowledgedKeyIsShown(max: nat, before: seq<Ingest.Step>, visits: seq<Visit>, f: Filter, c: nat)
    requires max > 0 && Ingest.Possible(max, Ingest.Start(), before)
    requires Possible(max, Ingest.Run(max, Ingest.Start(), before), visits)
    requires var s := Ingest.Run(max, Ingest.Start(), before);
             && c < |s.calls| && s.calls[c].phase == Ingest.Returned(None) && s.calls[c].event.time != UNSET
             && (forall k :: 0 <= k < |before| ==> Ingest.Carries(before[k], s.calls[c].event.id, s.calls[c].event.time))
             && (forall e :: e in s.rows && SameKey(e, s.calls[c].event) ==> Matches(f, e))
             && Ends(Fetches(max, s, visits), f, TOP)
    ensures var s := Ingest.Run(max, Ingest.Start(), before);
            HasKey(Walk(Fetches(max, s, visits), f, TOP), s.calls[c].event)
  {
    var s := Ingest.Run(max, Ingest.Start(), before);
    var event := s.calls[c].event;
    Ingest.StartInv(max);
    Ingest.RunInv(max, Ingest.Start(), before);
    Ingest.NilMeansStored(max, before);
    Ingest.RunTimed(max, Ingest.Start(), before, event.id, event.time);
    var i :| 0 <= i < |s.rows| && s.rows[i].id == event.id;
    StoredIsShown(max, s, visits, f, i);
  }
}
