/** The audit rows of the outbox on their way to the log: the pipeline, the audit flow of the broker and the
    ingest pipeline as one protocol. */
module AuditTrail {
  import opened Values
  import opened Entities
  import opened Database
  import opened Consistency
  import opened AuditStore
  import Pipeline
  import Invariant
  import Outcome
  import Broker
  import Ingest = AuditIngest

  const MAX_AUDIT_ATTEMPTS: nat := 8

  // ---- The state -----------------------------------------------------------------------------

  /** The event an audit row of the outbox carries, by the number of the row. */
  type Stamp = nat -> Event

  /** `callers[c]` is the delivery that the c-th call of Ingest serves, if it serves one. */
  datatype Trail = Trail(
    sys: Pipeline.System,
    flow: Broker.Flow<Event>,
    ingest: Ingest.State,
    callers: seq<Option<nat>>)

  const START := Trail(Pipeline.INITIAL, [], Ingest.Start(), [])

  /** `Take` hands a delivery to Ingest; `Finish` is its handler returning nil because the call did. Ingest also
      serves calls that come from elsewhere, among the `Ingesting` steps. */
  datatype Step =
    | Piped(pipe: Pipeline.Step)
    | AuditBroker(audit: Broker.Step<Event>)
    | Take(k: nat, now: Time)
    | Ingesting(ingest: Ingest.Step)
    | Finish(k: nat, c: nat)

  predicate Enabled(ar: Arithmetic, t: Trail, step: Step) {
    match step
    case Piped(p) => Pipeline.Enabled(ar, t.sys, p)
    case AuditBroker(b) => Pipeline.Plain(b) && Broker.Enabled(MAX_AUDIT_ATTEMPTS, t.flow, b)
    case Take(k, now) => k < |t.flow| && t.flow[k].place == Broker.Unacked(Broker.Fresh) && now != UNSET
    case Ingesting(i) => Ingest.Enabled(t.ingest, i)
    case Finish(k, c) =>
      && c < |t.callers| && c < |t.ingest.calls| && t.callers[c] == Some(k)
      && t.ingest.calls[c].phase == Ingest.Returned(None) && k < |t.flow| && Broker.Working(t.flow[k])
  }

  /** What a relayed row puts on the audit flow. */
  function Sends(stamp: Stamp, outbox: seq<OutboxRow>, p: Pipeline.Step): Broker.Flow<Event> {
    if p.RelayRow? && p.row < |outbox| && outbox[p.row].payload.AuditPayload?
    then [Broker.Copy(stamp(p.row), 0, Broker.Main)] else []
  }

  function Do(ar: Arithmetic, max: nat, stamp: Stamp, t: Trail, step: Step): Trail
    requires max > 0 && Enabled(ar, t, step)
  {
    match step
    case Piped(p) => t.(sys := Pipeline.Do(ar, t.sys, p), flow := t.flow + Sends(stamp, t.sys.db.outbox, p))
    case AuditBroker(b) => t.(flow := Broker.Do(MAX_AUDIT_ATTEMPTS, t.flow, b))
    case Take(k, now) =>
      t.(flow := Broker.Move(t.flow, k, Broker.Unacked(Broker.Announced)),
         ingest := Ingest.Do(max, t.ingest, Ingest.Begin(t.flow[k].body, now)),
         callers := t.callers + [Some(k)])
    case Ingesting(i) =>
      t.(ingest := Ingest.Do(max, t.ingest, i), callers := if i.Begin? then t.callers + [None] else t.callers)
    case Finish(k, c) => t.(flow := Broker.Move(t.flow, k, Broker.Unacked(Broker.Handled)))
  }

  predicate Possible(ar: Arithmetic, max: nat, stamp: Stamp, t: Trail, steps: seq<Step>)
    requires max > 0
    decreases |steps|
  {
    steps == [] || (Enabled(ar, t, steps[0]) && Possible(ar, max, stamp, Do(ar, max, stamp, t, steps[0]), steps[1..]))
  }

  function Run(ar: Arithmetic, max: nat, stamp: Stamp, t: Trail, steps: seq<Step>): Trail
    requires max > 0 && Possible(ar, max, stamp, t, steps)
    decreases |steps|
  {
    if steps == [] then t else Run(ar, max, stamp, Do(ar, max, stamp, t, steps[0]), steps[1..])
  }

  // ---- The invariant -------------------------------------------------------------------------

  /** Every call that serves a delivery has its event. */
  ghost predicate CallersOk(flow: Broker.Flow<Event>, calls: seq<Ingest.Call>, callers: seq<Option<nat>>) {
    && |callers| == |calls|
    && forall c :: 0 <= c < |callers| && callers[c].Some? ==>
         callers[c].value < |flow| && calls[c].event.id == flow[callers[c].value].body.id
  }

  /** A delivery whose handler returned nil has its event stored. */
  ghost predicate HandledOk(flow: Broker.Flow<Event>, rows: seq<Event>) {
    forall k :: 0 <= k < |flow| && Broker.Kept(flow[k]) && !Broker.Live(flow[k]) ==> HasId(rows, flow[k].body.id)
  }

  /** Every audit row whose publish was confirmed is on the flow still, or was handled. */
  ghost predicate SentOk(stamp: Stamp, sys: Pipeline.System, flow: Broker.Flow<Event>) {
    forall row :: 0 <= row < |sys.db.outbox| && sys.db.outbox[row].payload.AuditPayload? && Invariant.HandedOver(sys, row) ==>
      Broker.HasKept(flow, stamp(row))
  }

  ghost predicate Inv(ar: Arithmetic, max: nat, stamp: Stamp, t: Trail) {
    && Invariant.Inv(ar, t.sys) && Ingest.Inv(max, t.ingest)
    && CallersOk(t.flow, t.ingest.calls, t.callers) && HandledOk(t.flow, t.ingest.rows) && SentOk(stamp, t.sys, t.flow)
  }

  /** Bodies stay, and new copies come at the end. */
  predicate SameBodies(flow: Broker.Flow<Event>, flow': Broker.Flow<Event>) {
    |flow| <= |flow'| && forall k :: 0 <= k < |flow| ==> flow'[k].body == flow[k].body
  }

  // ---- Steps of the pipeline -----------------------------------------------------------------

  /** Rows become handed over only by a confirmed publish; new rows are not. */
  lemma HandedOverNext(ar: Arithmetic, s: Pipeline.System, p: Pipeline.Step, row: nat)
    requires ar.Valid() && Invariant.Inv(ar, s) && Pipeline.Enabled(ar, s, p)
    requires row < |Pipeline.Do(ar, s, p).db.outbox| && Invariant.HandedOver(Pipeline.Do(ar, s, p), row)
    ensures row < |s.db.outbox| && s.db.outbox[row].payload == Pipeline.Do(ar, s, p).db.outbox[row].payload
    ensures Invariant.HandedOver(s, row) || p == Pipeline.RelayRow(row, true)
  {
    match p
    case SubmitText(raw) =>
      Invariant.SubmitKeeps(ar, s.db, raw);
      RowsAppended(s, Pipeline.Do(ar, s, p), row);
    case Apply(k, _) =>
      Invariant.HandleKeeps(ar, s.db, s.resultFlow[k].body);
      RowsAppended(s, Pipeline.Do(ar, s, p), row);
    case _ =>
  }

  lemma RowsAppended(s: Pipeline.System, s': Pipeline.System, row: nat)
    requires Evolves(s.db, s'.db) && s'.relayed == s.relayed && forall r :: r in s.relayed ==> r < |s.db.outbox|
    requires row < |s'.db.outbox| && Invariant.HandedOver(s', row)
    ensures row < |s.db.outbox| && s'.db.outbox[row] == s.db.outbox[row] && Invariant.HandedOver(s, row)
  {
    if row < |s.db.outbox| { assert s'.db.outbox[..|s.db.outbox|][row] == s.db.outbox[row]; }
  }

  lemma KeptOn(flow: Broker.Flow<Event>, more: Broker.Flow<Event>, e: Event)
    requires flow <= more && Broker.HasKept(flow, e)
    ensures Broker.HasKept(more, e)
  {
    var k :| 0 <= k < |flow| && Broker.Kept(flow[k]) && flow[k].body == e;
    assert more[k] == flow[k];
  }

  lemma PipedSent(ar: Arithmetic, stamp: Stamp, s: Pipeline.System, flow: Broker.Flow<Event>, p: Pipeline.Step)
    requires ar.Valid() && Invariant.Inv(ar, s) && Pipeline.Enabled(ar, s, p) && SentOk(stamp, s, flow)
    ensures SentOk(stamp, Pipeline.Do(ar, s, p), flow + Sends(stamp, s.db.outbox, p))
  {
    var s', flow' := Pipeline.Do(ar, s, p), flow + Sends(stamp, s.db.outbox, p);
    forall row | 0 <= row < |s'.db.outbox| && s'.db.outbox[row].payload.AuditPayload? && Invariant.HandedOver(s', row)
      ensures Broker.HasKept(flow', stamp(row))
    {
      HandedOverNext(ar, s, p, row);
      if Invariant.HandedOver(s, row) {
        KeptOn(flow, flow', stamp(row));
      } else {
        assert flow'[|flow|] == Broker.Copy(stamp(row), 0, Broker.Main) && Broker.Kept(flow'[|flow|]);
      }
    }
  }

  lemma MoreFlow(flow: Broker.Flow<Event>, more: Broker.Flow<Event>, calls: seq<Ingest.Call>, callers: seq<Option<nat>>,
                 rows: seq<Event>)
    requires CallersOk(flow, calls, callers) && HandledOk(flow, rows)
    requires forall k :: 0 <= k < |more| ==> Broker.Live(more[k])
    ensures CallersOk(flow + more, calls, callers) && HandledOk(flow + more, rows)
  {
  }

  // ---- Steps of the broker -------------------------------------------------------------------

  /** A plain step makes no handler return nil. */
  lemma PlainHandled(flow: Broker.Flow<Event>, b: Broker.Step<Event>, rows: seq<Event>)
    requires Pipeline.Plain(b) && Broker.Enabled(MAX_AUDIT_ATTEMPTS, flow, b) && HandledOk(flow, rows)
    ensures HandledOk(Broker.Do(MAX_AUDIT_ATTEMPTS, flow, b), rows)
    ensures SameBodies(flow, Broker.Do(MAX_AUDIT_ATTEMPTS, flow, b))
  {
  }

  lemma KeptSent(stamp: Stamp, sys: Pipeline.System, flow: Broker.Flow<Event>, b: Broker.Step<Event>)
    requires Broker.Enabled(MAX_AUDIT_ATTEMPTS, flow, b) && SentOk(stamp, sys, flow)
    ensures SentOk(stamp, sys, Broker.Do(MAX_AUDIT_ATTEMPTS, flow, b))
  {
    var flow' := Broker.Do(MAX_AUDIT_ATTEMPTS, flow, b);
    forall row | 0 <= row < |sys.db.outbox| && sys.db.outbox[row].payload.AuditPayload? && Invariant.HandedOver(sys, row)
      ensures Broker.HasKept(flow', stamp(row))
    {
      Broker.KeptNext(MAX_AUDIT_ATTEMPTS, flow, b, stamp(row));
    }
  }

  lemma CallersStay(flow: Broker.Flow<Event>, flow': Broker.Flow<Event>, calls: seq<Ingest.Call>, callers: seq<Option<nat>>)
    requires CallersOk(flow, calls, callers) && SameBodies(flow, flow')
    ensures CallersOk(flow', calls, callers)
  {
  }

  // ---- Steps of the ingest pipeline ----------------------------------------------------------

  lemma CallEventsStay(max: nat, s: Ingest.State, i: Ingest.Step)
    requires max > 0 && Ingest.Enabled(s, i)
    ensures var s' := Ingest.Do(max, s, i);
            && |s'.calls| == |s.calls| + (if i.Begin? then 1 else 0)
            && forall c :: 0 <= c < |s.calls| ==> s'.calls[c].event == s.calls[c].event
  {
  }

  lemma HandledStays(flow: Broker.Flow<Event>, rows: seq<Event>, more: seq<Event>)
    requires HandledOk(flow, rows) && rows <= more
    ensures HandledOk(flow, more)
  {
    forall k | 0 <= k < |flow| && Broker.Kept(flow[k]) && !Broker.Live(flow[k]) ensures HasId(more, flow[k].body.id) {
      PrefixKeepsIds(rows, more, flow[k].body.id);
    }
  }

  /** Calls keep their events, and a call that comes from elsewhere serves no delivery. */
  lemma CallersNext(flow: Broker.Flow<Event>, calls: seq<Ingest.Call>, calls': seq<Ingest.Call>, callers: seq<Option<nat>>,
                    callers': seq<Option<nat>>)
    requires CallersOk(flow, calls, callers) && |callers'| == |calls'| >= |calls|
    requires forall c :: 0 <= c < |calls| ==> calls'[c].event == calls[c].event && callers'[c] == callers[c]
    requires forall c :: |calls| <= c < |calls'| ==> callers'[c] == None
    ensures CallersOk(flow, calls', callers')
  {
    forall c | 0 <= c < |callers'| && callers'[c].Some?
      ensures callers'[c].value < |flow| && calls'[c].event.id == flow[callers'[c].value].body.id
    {
      assert c < |calls| && callers[c].Some?;
    }
  }

  lemma IngestingInv(ar: Arithmetic, max: nat, stamp: Stamp, t: Trail, i: Ingest.Step)
    requires max > 0 && Inv(ar, max, stamp, t) && Ingest.Enabled(t.ingest, i)
    ensures Inv(ar, max, stamp, Do(ar, max, stamp, t, Ingesting(i)))
  {
    var t' := Do(ar, max, stamp, t, Ingesting(i));
    Ingest.StepInv(max, t.ingest, i);
    Ingest.RowsGrow(max, t.ingest, i);
    CallEventsStay(max, t.ingest, i);
    HandledStays(t.flow, t.ingest.rows, t'.ingest.rows);
    CallersNext(t.flow, t.ingest.calls, t'.ingest.calls, t.callers, t'.callers);
  }

  lemma TakeInv(ar: Arithmetic, max: nat, stamp: Stamp, t: Trail, k: nat, now: Time)
    requires max > 0 && Inv(ar, max, stamp, t) && Enabled(ar, t, Take(k, now))
    ensures Inv(ar, max, stamp, Do(ar, max, stamp, t, Take(k, now)))
  {
    var i := Ingest.Begin(t.flow[k].body, now);
    var flow := Broker.Do(MAX_AUDIT_ATTEMPTS, t.flow, Broker.Announce(k));
    Ingest.StepInv(max, t.ingest, i);
    CallEventsStay(max, t.ingest, i);
    KeptSent(stamp, t.sys, t.flow, Broker.Announce(k));
    CallersStay(t.flow, flow, t.ingest.calls, t.callers);
    CallersTake(flow, t.ingest.calls, Ingest.Do(max, t.ingest, i).calls, t.callers, k);
    HandledSame(t.flow, k, Broker.Unacked(Broker.Announced), t.ingest.rows);
  }

  /** The call that takes a delivery has its event. */
  lemma CallersTake(flow: Broker.Flow<Event>, calls: seq<Ingest.Call>, calls': seq<Ingest.Call>, callers: seq<Option<nat>>, k: nat)
    requires CallersOk(flow, calls, callers) && |calls'| == |calls| + 1 && k < |flow|
    requires forall c :: 0 <= c < |calls| ==> calls'[c].event == calls[c].event
    requires calls'[|calls|].event.id == flow[k].body.id
    ensures CallersOk(flow, calls', callers + [Some(k)])
  {
  }

  lemma HandledSame(flow: Broker.Flow<Event>, k: nat, p: Broker.Place, rows: seq<Event>)
    requires HandledOk(flow, rows) && k < |flow| && p == Broker.Unacked(Broker.Announced)
    ensures HandledOk(Broker.Move(flow, k, p), rows)
  {
  }

  lemma FinishInv(ar: Arithmetic, max: nat, stamp: Stamp, t: Trail, k: nat, c: nat)
    requires max > 0 && Inv(ar, max, stamp, t) && Enabled(ar, t, Finish(k, c))
    ensures Inv(ar, max, stamp, Do(ar, max, stamp, t, Finish(k, c)))
  {
    var flow := Broker.Do(MAX_AUDIT_ATTEMPTS, t.flow, Broker.Handle(k));
    assert Ingest.CallOk(t.ingest.rows, t.ingest.items, t.ingest.calls[c]);
    KeptSent(stamp, t.sys, t.flow, Broker.Handle(k));
    CallersStay(t.flow, flow, t.ingest.calls, t.callers);
  }

  // ---- Runs ----------------------------------------------------------------------------------

  lemma StepInv(ar: Arithmetic, max: nat, stamp: Stamp, t: Trail, step: Step)
    requires ar.Valid() && max > 0 && Inv(ar, max, stamp, t) && Enabled(ar, t, step)
    ensures Inv(ar, max, stamp, Do(ar, max, stamp, t, step))
  {
    match step
    case Piped(p) =>
      Invariant.StepInv(ar, t.sys, p);
      PipedSent(ar, stamp, t.sys, t.flow, p);
      MoreFlow(t.flow, Sends(stamp, t.sys.db.outbox, p), t.ingest.calls, t.callers, t.ingest.rows);
    case AuditBroker(b) =>
      PlainHandled(t.flow, b, t.ingest.rows);
      KeptSent(stamp, t.sys, t.flow, b);
      CallersStay(t.flow, Broker.Do(MAX_AUDIT_ATTEMPTS, t.flow, b), t.ingest.calls, t.callers);
    case Take(k, now) => TakeInv(ar, max, stamp, t, k, now);
    case Ingesting(i) => IngestingInv(ar, max, stamp, t, i);
    case Finish(k, c) => FinishInv(ar, max, stamp, t, k, c);
  }

  lemma StartInv(ar: Arithmetic, max: nat, stamp: Stamp)
    requires max > 0
    ensures Inv(ar, max, stamp, START)
  {
    Invariant.StartInv(ar);
    Ingest.StartInv(max);
  }

  lemma {:induction false} RunInv(ar: Arithmetic, max: nat, stamp: Stamp, t: Trail, steps: seq<Step>)
    requires ar.Valid() && max > 0 && Inv(ar, max, stamp, t) && Possible(ar, max, stamp, t, steps)
    ensures Inv(ar, max, stamp, Run(ar, max, stamp, t, steps))
    decreases |steps|
  {
    if steps != [] {
      StepInv(ar, max, stamp, t, steps[0]);
      RunInv(ar, max, stamp, Do(ar, max, stamp, t, steps[0]), steps[1..]);
    }
  }

  // ---- The theorems --------------------------------------------------------------------------

  ghost predicate Reachable(ar: Arithmetic, max: nat, stamp: Stamp, t: Trail)
    requires max > 0
  {
    exists steps :: Possible(ar, max, stamp, START, steps) && Run(ar, max, stamp, START, steps) == t
  }

  lemma ReachableInv(ar: Arithmetic, max: nat, stamp: Stamp, t: Trail)
    requires ar.Valid() && max > 0 && Reachable(ar, max, stamp, t)
    ensures Inv(ar, max, stamp, t)
  {
    var steps :| Possible(ar, max, stamp, START, steps) && Run(ar, max, stamp, START, steps) == t;
    StartInv(ar, max, stamp);
    RunInv(ar, max, stamp, START, steps);
  }

  /** In every reachable state, whatever fails, crashes, is retried, redelivered or redriven: each audit row of the
      outbox is unpublished, or its event is live on the audit flow, or a row with its identifier is in the log. */
  lemma AuditNotLost(ar: Arithmetic, max: nat, stamp: Stamp, t: Trail, row: nat)
    requires ar.Valid() && max > 0 && Reachable(ar, max, stamp, t)
    requires row < |t.sys.db.outbox| && t.sys.db.outbox[row].payload.AuditPayload?
    ensures || t.sys.db.outbox[row].state == Unpublished
            || Broker.HasLive(t.flow, stamp(row)) || HasId(t.ingest.rows, stamp(row).id)
  {
    ReachableInv(ar, max, stamp, t);
    if t.sys.db.outbox[row].state != Unpublished { HandedOverSomewhere(ar, max, stamp, t, row); }
  }

  lemma HandedOverSomewhere(ar: Arithmetic, max: nat, stamp: Stamp, t: Trail, row: nat)
    requires max > 0 && Inv(ar, max, stamp, t)
    requires row < |t.sys.db.outbox| && t.sys.db.outbox[row].payload.AuditPayload? && Invariant.HandedOver(t.sys, row)
    ensures Broker.HasLive(t.flow, stamp(row)) || HasId(t.ingest.rows, stamp(row).id)
  {
    var k :| 0 <= k < |t.flow| && Broker.Kept(t.flow[k]) && t.flow[k].body == stamp(row);
    if Broker.Live(t.flow[k]) { assert Broker.HasLive(t.flow, stamp(row)); }
  }

  /** Nothing waits in the outbox and no audit message is live. */
  ghost predicate Quiet(t: Trail) {
    && (forall row :: 0 <= row < |t.sys.db.outbox| ==> t.sys.db.outbox[row].state != Unpublished)
    && (forall k :: 0 <= k < |t.flow| ==> !Broker.Live(t.flow[k]))
  }

  /** From the effect to the log: when nothing is on its way, what the outbox records is in the log. In particular the
      submission of every expression, the completion of every done task and every done expression, and the failure
      of every failed task. */
  lemma RecordedIsLogged(ar: Arithmetic, max: nat, stamp: Stamp, t: Trail, a: Audit) returns (row: nat)
    requires ar.Valid() && max > 0 && Reachable(ar, max, stamp, t) && Quiet(t)
    requires match a
             case ExpressionSubmitted(e) => e < |t.sys.db.expressions|
             case ExpressionDoneAudit(e) => e < |t.sys.db.expressions| && t.sys.db.expressions[e].status == ExprDone
             case TaskDoneAudit(i) => i < |t.sys.db.tasks| && t.sys.db.tasks[i].status == Done
             case TaskFailedAudit(i) => i < |t.sys.db.tasks| && t.sys.db.tasks[i].status == Failed
             case ExpressionFailedAudit(e) => FailedCount(t.sys.db.tasks, e) > 0
    ensures row < |t.sys.db.outbox| && t.sys.db.outbox[row].payload == AuditPayload(a)
    ensures HasId(t.ingest.rows, stamp(row).id)
  {
    ReachableInv(ar, max, stamp, t);
    var db, p := t.sys.db, AuditPayload(a);
    assert Recorded(db.outbox)[p] == Expected(db.tasks, db.expressions, p);
    row := RecordedRow(db.outbox, p);
    AuditNotLost(ar, max, stamp, t, row);
  }

  // ---- The log can always be reached ---------------------------------------------------------

  lemma RunHead(ar: Arithmetic, max: nat, stamp: Stamp, t: Trail, steps: seq<Step>, first: Step, rest: seq<Step>)
    requires max > 0 && steps == [first] + rest
    ensures Possible(ar, max, stamp, t, steps)
            <==> Enabled(ar, t, first) && Possible(ar, max, stamp, Do(ar, max, stamp, t, first), rest)
    ensures Possible(ar, max, stamp, t, steps) ==>
              Run(ar, max, stamp, t, steps) == Run(ar, max, stamp, Do(ar, max, stamp, t, first), rest)
  {
    assert steps[1..] == rest;
  }

  lemma ConcatHead(a: seq<Step>, b: seq<Step>)
    requires a != []
    ensures a == [a[0]] + a[1..] && a + b == [a[0]] + (a[1..] + b)
  {
  }

  lemma {:induction false} Concat(ar: Arithmetic, max: nat, stamp: Stamp, t: Trail, a: seq<Step>, b: seq<Step>)
    requires max > 0 && Possible(ar, max, stamp, t, a) && Possible(ar, max, stamp, Run(ar, max, stamp, t, a), b)
    ensures Possible(ar, max, stamp, t, a + b)
    ensures Run(ar, max, stamp, t, a + b) == Run(ar, max, stamp, Run(ar, max, stamp, t, a), b)
    decreases |a|
  {
    if a == [] {
      assert a + b == b;
    } else {
      var first, rest := a[0], a[1..];
      ConcatHead(a, b);
      RunHead(ar, max, stamp, t, a, first, rest);
      Concat(ar, max, stamp, Do(ar, max, stamp, t, first), rest, b);
      RunHead(ar, max, stamp, t, a + b, first, rest + b);
    }
  }

  lemma {:induction false} LiftBroker(ar: Arithmetic, max: nat, stamp: Stamp, t: Trail, bs: seq<Broker.Step<Event>>)
    returns (steps: seq<Step>)
    requires max > 0 && Broker.Possible(MAX_AUDIT_ATTEMPTS, t.flow, bs) && forall j :: 0 <= j < |bs| ==> Pipeline.Plain(bs[j])
    ensures Possible(ar, max, stamp, t, steps)
    ensures Run(ar, max, stamp, t, steps) == t.(flow := Broker.Run(MAX_AUDIT_ATTEMPTS, t.flow, bs))
    decreases |bs|
  {
    if bs == [] {
      steps := [];
    } else {
      var step := AuditBroker(bs[0]);
      var rest := LiftBroker(ar, max, stamp, Do(ar, max, stamp, t, step), bs[1..]);
      RunHead(ar, max, stamp, t, [step] + rest, step, rest);
      steps := [step] + rest;
    }
  }

  lemma {:induction false} LiftIngest(ar: Arithmetic, max: nat, stamp: Stamp, t: Trail, moves: seq<Ingest.Step>)
    returns (steps: seq<Step>)
    requires max > 0 && Ingest.Possible(max, t.ingest, moves)
    ensures Possible(ar, max, stamp, t, steps)
    ensures var t' := Run(ar, max, stamp, t, steps);
            t'.sys == t.sys && t'.flow == t.flow && t'.ingest == Ingest.Run(max, t.ingest, moves)
    decreases |moves|
  {
    if moves == [] {
      steps := [];
    } else {
      var step := Ingesting(moves[0]);
      var rest := LiftIngest(ar, max, stamp, Do(ar, max, stamp, t, step), moves[1..]);
      RunHead(ar, max, stamp, t, [step] + rest, step, rest);
      steps := [step] + rest;
    }
  }

  /** A live copy, or one made from it by a redrive, can be brought to the main queue. */
  lemma ToMain(f: Broker.Flow<Event>, k: nat) returns (bs: seq<Broker.Step<Event>>, k': nat)
    requires k < |f| && Broker.Live(f[k])
    ensures Broker.Possible(MAX_AUDIT_ATTEMPTS, f, bs) && forall j :: 0 <= j < |bs| ==> Pipeline.Plain(bs[j])
    ensures var f' := Broker.Run(MAX_AUDIT_ATTEMPTS, f, bs);
            k' < |f'| && f'[k'].place == Broker.Main && f'[k'].body == f[k].body
  {
    bs, k' := [], k;
    match f[k].place
    case Main =>
    case Retry =>
      Broker.RunOne(MAX_AUDIT_ATTEMPTS, f, Broker.Expire(k));
      bs := [Broker.Expire(k)];
    case Unacked(_) =>
      Broker.RunOne(MAX_AUDIT_ATTEMPTS, f, Broker.Redeliver(k));
      bs := [Broker.Redeliver(k)];
    case Held(_) =>
      Broker.RunOne(MAX_AUDIT_ATTEMPTS, f, Broker.Redrive(k, false));
      bs, k' := [Broker.Redrive(k, false)], |f|;
    case Dlq =>
      Broker.RunTwo(MAX_AUDIT_ATTEMPTS, f, Broker.Hold(k), Broker.Redrive(k, false));
      bs, k' := [Broker.Hold(k), Broker.Redrive(k, false)], |f|;
  }

  /** A consumer can get it. */
  lemma ToConsumer(ar: Arithmetic, max: nat, stamp: Stamp, t: Trail, k: nat) returns (steps: seq<Step>, k': nat)
    requires max > 0 && k < |t.flow| && Broker.Live(t.flow[k])
    ensures Possible(ar, max, stamp, t, steps)
    ensures var t' := Run(ar, max, stamp, t, steps);
            k' < |t'.flow| && t'.flow[k'].place == Broker.Unacked(Broker.Fresh) && t'.flow[k'].body == t.flow[k].body
  {
    var bs;
    bs, k' := ToMain(t.flow, k);
    var f' := Broker.Run(MAX_AUDIT_ATTEMPTS, t.flow, bs);
    Broker.RunOne(MAX_AUDIT_ATTEMPTS, f', Broker.Deliver(k'));
    Broker.RunConcat(MAX_AUDIT_ATTEMPTS, t.flow, bs, [Broker.Deliver(k')]);
    steps := LiftBroker(ar, max, stamp, t, bs + [Broker.Deliver(k')]);
  }

  /** The calls in progress and the buffer lost, the delivery is ingested by a new call. */
  lemma IngestDelivery(ar: Arithmetic, max: nat, stamp: Stamp, t: Trail, k: nat) returns (steps: seq<Step>)
    requires max > 0 && k < |t.flow| && t.flow[k].place == Broker.Unacked(Broker.Fresh) && Ingest.Acceptable(t.flow[k].body)
    ensures Possible(ar, max, stamp, t, steps)
    ensures HasId(Run(ar, max, stamp, t, steps).ingest.rows, t.flow[k].body.id)
  {
    var raw := t.flow[k].body;
    var t1 := Do(ar, max, stamp, t, Ingesting(Ingest.Crash));
    var delivery := Ingest.Delivery(|t1.ingest.calls|, raw, 1);
    Ingest.DeliveryStores(max, t1.ingest, raw, 1);
    assert delivery[0] == Ingest.Begin(raw, 1);
    var t2 := Do(ar, max, stamp, t1, Take(k, 1));
    var rest := LiftIngest(ar, max, stamp, t2, delivery[1..]);
    RunHead(ar, max, stamp, t1, [Take(k, 1)] + rest, Take(k, 1), rest);
    RunHead(ar, max, stamp, t, [Ingesting(Ingest.Crash)] + ([Take(k, 1)] + rest), Ingesting(Ingest.Crash), [Take(k, 1)] + rest);
    steps := [Ingesting(Ingest.Crash)] + ([Take(k, 1)] + rest);
    InsertKeeps(t1.ingest.rows, Ingest.Completed(raw, 1));
    KeyGivesId(Insert(t1.ingest.rows, Ingest.Completed(raw, 1)), Ingest.Completed(raw, 1));
  }

  lemma LiveCanArrive(ar: Arithmetic, max: nat, stamp: Stamp, t: Trail, e: Event) returns (steps: seq<Step>)
    requires max > 0 && Broker.HasLive(t.flow, e) && Ingest.Acceptable(e)
    ensures Possible(ar, max, stamp, t, steps) && HasId(Run(ar, max, stamp, t, steps).ingest.rows, e.id)
  {
    var k :| 0 <= k < |t.flow| && Broker.Live(t.flow[k]) && t.flow[k].body == e;
    var first, k' := ToConsumer(ar, max, stamp, t, k);
    var rest := IngestDelivery(ar, max, stamp, Run(ar, max, stamp, t, first), k');
    Concat(ar, max, stamp, t, first, rest);
    steps := first + rest;
  }

  /** From every reachable state, whatever has gone wrong so far, the event of every audit row of the outbox can still
      be brought into the log, if it has an identifier and a type. */
  lemma AuditCanArrive(ar: Arithmetic, max: nat, stamp: Stamp, t: Trail, row: nat) returns (steps: seq<Step>)
    requires ar.Valid() && max > 0 && Reachable(ar, max, stamp, t)
    requires row < |t.sys.db.outbox| && t.sys.db.outbox[row].payload.AuditPayload?
    requires stamp(row).id != NIL && stamp(row).kind != ""
    ensures Possible(ar, max, stamp, t, steps) && HasId(Run(ar, max, stamp, t, steps).ingest.rows, stamp(row).id)
  {
    ReachableInv(ar, max, stamp, t);
    if Invariant.HandedOver(t.sys, row) {
      HandedOverSomewhere(ar, max, stamp, t, row);
      if Broker.HasLive(t.flow, stamp(row)) {
        steps := LiveCanArrive(ar, max, stamp, t, stamp(row));
      } else {
        steps := [];
      }
    } else {
      var step := Piped(Pipeline.RelayRow(row, false));
      var t1 := Do(ar, max, stamp, t, step);
      assert Broker.Live(t1.flow[|t.flow|]) && t1.flow[|t.flow|].body == stamp(row);
      var rest := LiveCanArrive(ar, max, stamp, t1, stamp(row));
      RunHead(ar, max, stamp, t, [step] + rest, step, rest);
      steps := [step] + rest;
    }
  }
}
