/** What the protocol guarantees: right results, no lost work, exactly-once effects. */
module Outcome {
  import opened Values
  import opened Entities
  import opened Database
  import opened ShuntingYard
  import opened Consistency
  import opened FanIn
  import opened Transactions
  import opened Pipeline
  import opened Invariant
  import opened Infix
  import Broker

  /** A state some run of the protocol leads to. */
  ghost predicate Reachable(ar: Arithmetic, s: System) {
    exists steps :: Pipeline.Possible(ar, INITIAL, steps) && Pipeline.Run(ar, INITIAL, steps) == s
  }

  lemma ReachableInv(ar: Arithmetic, s: System)
    requires ar.Valid() && Reachable(ar, s)
    ensures Inv(ar, s)
  {
    var steps :| Pipeline.Possible(ar, INITIAL, steps) && Pipeline.Run(ar, INITIAL, steps) == s;
    StartInv(ar);
    RunInv(ar, INITIAL, steps);
  }

  // ---- Right results -------------------------------------------------------------------------

  /** A done task holds the value of its tree; a failed task's tree does not evaluate. */
  lemma {:induction false} TaskMeans(ar: Arithmetic, tasks: seq<Task>, i: nat)
    requires TasksOk(ar, tasks) && Linked(tasks) && i < |tasks|
    ensures tasks[i].status == Done ==>
              tasks[i].result.Some? && Eval(ar, Denote(tasks, i)) == Ok(tasks[i].result.value)
    ensures tasks[i].status == Failed ==> Eval(ar, Denote(tasks, i)).Err?
    decreases i
  {
    var t := tasks[i];
    assert TaskOk(ar, tasks, i);
    assert TaskLinked(tasks, i);
    if t.arg1TaskId.Some? { TaskMeans(ar, tasks, t.arg1TaskId.value); }
    if t.arg2TaskId.Some? { TaskMeans(ar, tasks, t.arg2TaskId.value); }
  }

  /** If a task's tree does not evaluate, neither does the tree of any task above it. */
  lemma {:induction false} FailureRises(ar: Arithmetic, tasks: seq<Task>, c: nat, r: nat)
    requires TasksOk(ar, tasks) && OneRoot(tasks) && Linked(tasks)
    requires c < |tasks| && IsRootOf(tasks, tasks[c].expressionId, r)
    requires Eval(ar, Denote(tasks, c)).Err?
    ensures Eval(ar, Denote(tasks, r)).Err?
    decreases |tasks| - c
  {
    if c != r {
      assert !tasks[c].isRoot;
      assert TaskOk(ar, tasks, c);
      var p :| c < p < |tasks| && Refers(tasks[p], c);
      assert TaskOk(ar, tasks, p);
      assert TaskLinked(tasks, p);
      FailureRises(ar, tasks, p, r);
    }
  }

  /** An expression marked done holds the value of its text; one marked failed has a text whose
      evaluation divides by zero. */
  lemma FinishedMeans(ar: Arithmetic, s: System, e: nat)
    requires ar.Valid() && Reachable(ar, s) && e < |s.db.expressions|
    ensures ParseOf(ar, s.db.expressions[e].raw).Ok?
    ensures var x, ast := s.db.expressions[e], ParseOf(ar, s.db.expressions[e].raw).value;
            && (x.status == ExprDone ==> x.result.Some? && Worth(ar, ast) == x.result && Eval(ar, ast) == Ok(x.result.value))
            && (x.status == ExprFailed ==> Worth(ar, ast) == None && Eval(ar, ast) == Err(DivisionByZero))
  {
    ReachableInv(ar, s);
    var tasks, x := s.db.tasks, s.db.expressions[e];
    assert ExpressionOk(ar, tasks, s.db.expressions, e);
    var ast := ParseOf(ar, x.raw).value;
    EvalIsWorth(ar, ast);
    if ast.Binary? {
      var r :| IsRootOf(tasks, e, r) && Denote(tasks, r) == ast && StatusOk(tasks, e, x, r);
      TaskMeans(ar, tasks, r);
      assert TaskOk(ar, tasks, r);
      if x.status == ExprFailed {
        var i :| 0 <= i < |tasks| && Belongs(tasks[i], e) && tasks[i].status == Failed;
        TaskMeans(ar, tasks, i);
        FailureRises(ar, tasks, i, r);
        EvalFailsByDivision(ar, ast);
      }
    }
  }

  predicate Finished(x: Expression) {
    x.status == ExprDone || x.status == ExprFailed
  }

  /** Whatever the interleaving, the failures and the retries: once finished, the same text has the
      same outcome in every run. */
  lemma ScheduleIndependent(ar: Arithmetic, s: System, e: nat, s': System, e': nat)
    requires ar.Valid() && Reachable(ar, s) && Reachable(ar, s')
    requires e < |s.db.expressions| && e' < |s'.db.expressions|
    requires s.db.expressions[e].raw == s'.db.expressions[e'].raw
    requires Finished(s.db.expressions[e]) && Finished(s'.db.expressions[e'])
    ensures s.db.expressions[e] == s'.db.expressions[e']
  {
    FinishedMeans(ar, s, e);
    FinishedMeans(ar, s', e');
    UnfinishedHasNoResult(ar, s, e);
    UnfinishedHasNoResult(ar, s', e');
  }

  lemma UnfinishedHasNoResult(ar: Arithmetic, s: System, e: nat)
    requires ar.Valid() && Reachable(ar, s) && e < |s.db.expressions|
    ensures s.db.expressions[e].result.Some? <==> s.db.expressions[e].status == ExprDone
  {
    ReachableInv(ar, s);
    var tasks, x := s.db.tasks, s.db.expressions[e];
    assert ExpressionOk(ar, tasks, s.db.expressions, e);
    if ParseOf(ar, x.raw).value.Binary? {
      var r :| IsRootOf(tasks, e, r) && StatusOk(tasks, e, x, r);
      assert TaskOk(ar, tasks, r);
    }
  }

  /** From the written formula to the stored result: parsing, planning, distributing and fanning in
      again compute what the formula means. */
  lemma WrittenFormulaEvaluated(ar: Arithmetic, s: System, e: nat, before: string, t: Written, after: string)
    requires ar.Valid() && Reachable(ar, s) && e < |s.db.expressions|
    requires WellFormed(ar, t) && Spaces(before) && Spaces(after)
    requires s.db.expressions[e].raw == before + Text(t) + after && Finished(s.db.expressions[e])
    ensures match Worth(ar, Meaning(ar, t))
            case Some(v) => s.db.expressions[e].status == ExprDone && s.db.expressions[e].result == Some(v)
            case None => s.db.expressions[e].status == ExprFailed && s.db.expressions[e].result == None
  {
    UnfinishedHasNoResult(ar, s, e);
    ParseWritten(ar, before, t, after);
    FinishedMeans(ar, s, e);
  }

  // ---- No lost work --------------------------------------------------------------------------

  ghost predicate WaitsInOutbox(s: System, i: nat) {
    exists row :: 0 <= row < |s.db.outbox| && s.db.outbox[row].state == Unpublished
      && s.db.outbox[row].payload.TaskPayload? && s.db.outbox[row].payload.message.taskId == i
  }

  /** The message of a task that has left pending. */
  function TaskMessageOf(tasks: seq<Task>, i: nat): TaskMessage
    requires i < |tasks| && tasks[i].arg1Value.Some? && tasks[i].arg2Value.Some?
  {
    TaskMessage(i, tasks[i].expressionId, tasks[i].op, tasks[i].arg1Value.value, tasks[i].arg2Value.value)
  }

  lemma ArgumentsThere(ar: Arithmetic, tasks: seq<Task>, i: nat)
    requires TasksOk(ar, tasks) && i < |tasks| && tasks[i].status != Pending
    ensures tasks[i].arg1Value.Some? && tasks[i].arg2Value.Some?
  {
    var t := tasks[i];
    assert TaskOk(ar, tasks, i);
    if t.arg1TaskId.Some? { assert TaskOk(ar, tasks, t.arg1TaskId.value); }
    if t.arg2TaskId.Some? { assert TaskOk(ar, tasks, t.arg2TaskId.value); }
  }

  /** Every enqueued task that is not settled is carried by something: an unpublished outbox row, a
      task message, or a final result message, in a main, retry or dead-letter queue or held by a
      consumer or operator that has not let go of it. */
  lemma NoLostWork(ar: Arithmetic, s: System, i: nat)
    requires Inv(ar, s) && Awaited(s.db.tasks, i)
    ensures WaitsInOutbox(s, i) || Carried(s, i)
  {
    ArgumentsThere(ar, s.db.tasks, i);
    var p := TaskPayload(TaskMessageOf(s.db.tasks, i));
    assert Recorded(s.db.outbox)[p] == Expected(s.db.tasks, s.db.expressions, p);
    var row := RecordedRow(s.db.outbox, p);
    assert RowOk(s, row);
  }

  lemma ReachableNoLostWork(ar: Arithmetic, s: System, i: nat)
    requires ar.Valid() && Reachable(ar, s) && Awaited(s.db.tasks, i)
    ensures WaitsInOutbox(s, i) || Carried(s, i)
  {
    ReachableInv(ar, s);
    NoLostWork(ar, s, i);
  }

  /** Nothing waits in the outbox, and no message is live in the broker. */
  ghost predicate Quiescent(s: System) {
    && (forall row :: 0 <= row < |s.db.outbox| ==> s.db.outbox[row].state != Unpublished)
    && (forall k :: 0 <= k < |s.taskFlow| ==> !Broker.Live(s.taskFlow[k]))
    && (forall k :: 0 <= k < |s.resultFlow| ==> !Broker.Live(s.resultFlow[k]))
  }

  /** Below a pending task, when nothing is on its way, there is a failed one. */
  lemma {:induction false} PendingOverFailed(ar: Arithmetic, tasks: seq<Task>, i: nat)
    requires TasksOk(ar, tasks) && i < |tasks| && tasks[i].status == Pending
    requires forall j :: 0 <= j < |tasks| ==> !Awaited(tasks, j)
    ensures SomeTask(tasks, tasks[i].expressionId, Failed)
    decreases i
  {
    var t := tasks[i];
    assert TaskOk(ar, tasks, i);
    var c := if Waiting(tasks, t.arg1TaskId) > 0 then t.arg1TaskId.value else t.arg2TaskId.value;
    assert !Awaited(tasks, c);
    if tasks[c].status == Pending {
      PendingOverFailed(ar, tasks, c);
    } else {
      assert Belongs(tasks[c], t.expressionId);
    }
  }

  /** When nothing is on its way any more, every expression is done or failed. */
  lemma QuiescentSettled(ar: Arithmetic, s: System, e: nat)
    requires ar.Valid() && Reachable(ar, s) && Quiescent(s) && e < |s.db.expressions|
    ensures Finished(s.db.expressions[e])
  {
    ReachableInv(ar, s);
    forall j | 0 <= j < |s.db.tasks| ensures !Awaited(s.db.tasks, j) {
      if Awaited(s.db.tasks, j) { NoLostWork(ar, s, j); }
    }
    AllSettled(ar, s.db, e);
  }

  lemma AllSettled(ar: Arithmetic, db: Db, e: nat)
    requires DbOk(ar, db) && e < |db.expressions|
    requires forall j :: 0 <= j < |db.tasks| ==> !Awaited(db.tasks, j)
    ensures Finished(db.expressions[e])
  {
    var tasks, x := db.tasks, db.expressions[e];
    assert ExpressionOk(ar, tasks, db.expressions, e);
    if ParseOf(ar, x.raw).value.Binary? {
      var r: nat :| IsRootOf(tasks, e, r) && StatusOk(tasks, e, x, r);
      assert !Awaited(tasks, r);
      if tasks[r].status == Pending {
        PendingOverFailed(ar, tasks, r);
      } else if tasks[r].status == Failed {
        assert Belongs(tasks[r], e);
      }
    }
  }

  // ---- Exactly-once effects ------------------------------------------------------------------

  /** Over any run: one submission record per expression; one task message per task, enqueued if and
      only if the task has left pending; one completion record exactly for each done task and each
      done expression; one failure record for each failed task, and of the expression as many. */
  lemma ExactlyOnce(ar: Arithmetic, s: System)
    requires ar.Valid() && Reachable(ar, s)
    ensures var rec := Recorded(s.db.outbox);
      && (forall e :: 0 <= e < |s.db.expressions| ==>
            && rec[AuditPayload(ExpressionSubmitted(e))] == 1
            && rec[AuditPayload(ExpressionDoneAudit(e))] == (if s.db.expressions[e].status == ExprDone then 1 else 0)
            && rec[AuditPayload(ExpressionFailedAudit(e))] == FailedCount(s.db.tasks, e))
      && (forall i :: 0 <= i < |s.db.tasks| ==>
            && rec[AuditPayload(TaskDoneAudit(i))] == (if s.db.tasks[i].status == Done then 1 else 0)
            && rec[AuditPayload(TaskFailedAudit(i))] == (if s.db.tasks[i].status == Failed then 1 else 0))
      && (forall m :: rec[TaskPayload(m)] == (if IsMessageOf(s.db.tasks, m) then 1 else 0))
  {
    ReachableInv(ar, s);
    TasksRecorded(s.db);
    forall m ensures Recorded(s.db.outbox)[TaskPayload(m)] == (if IsMessageOf(s.db.tasks, m) then 1 else 0) {
      assert Recorded(s.db.outbox)[TaskPayload(m)] == Expected(s.db.tasks, s.db.expressions, TaskPayload(m));
    }
  }

  lemma TasksRecorded(db: Db)
    requires OutboxOk(db)
    ensures forall i :: 0 <= i < |db.tasks| ==>
              && Recorded(db.outbox)[AuditPayload(TaskDoneAudit(i))] == (if db.tasks[i].status == Done then 1 else 0)
              && Recorded(db.outbox)[AuditPayload(TaskFailedAudit(i))] == (if db.tasks[i].status == Failed then 1 else 0)
  {
    var rec := Recorded(db.outbox);
    forall p ensures rec[p] == Expected(db.tasks, db.expressions, p) {}
  }

  // ---- Statuses ------------------------------------------------------------------------------

  /** Task `p` waits, directly or through others, for task `c`. */
  ghost predicate Above(tasks: seq<Task>, p: nat, c: nat)
    decreases p
  {
    p < |tasks| && (Refers(tasks[p], c) || exists m :: 0 <= m < p && Refers(tasks[p], m) && Above(tasks, m, c))
  }

  /** Everything above a task that is not done is pending. */
  lemma {:induction false} AncestorsPending(ar: Arithmetic, tasks: seq<Task>, p: nat, c: nat)
    requires TasksOk(ar, tasks) && Above(tasks, p, c) && c < |tasks| && tasks[c].status != Done
    ensures tasks[p].status == Pending
    decreases p
  {
    assert TaskOk(ar, tasks, p);
    if !Refers(tasks[p], c) {
      var m :| 0 <= m < p && Refers(tasks[p], m) && Above(tasks, m, c);
      AncestorsPending(ar, tasks, m, c);
    }
  }

  /** What stands above what depends only on the links. */
  lemma {:induction false} AboveStays(tasks: seq<Task>, tasks': seq<Task>, p: nat, c: nat)
    requires Above(tasks, p, c) && |tasks| <= |tasks'|
    requires forall i :: 0 <= i < |tasks| ==> SameShape(tasks[i], tasks'[i])
    ensures Above(tasks', p, c)
    decreases p
  {
    assert SameShape(tasks[p], tasks'[p]);
    if !Refers(tasks[p], c) {
      var m :| 0 <= m < p && Refers(tasks[p], m) && Above(tasks, m, c);
      AboveStays(tasks, tasks', m, c);
    }
  }

  /** Everything above a failed task stays pending for ever. */
  lemma AncestorsStayPending(ar: Arithmetic, s: System, steps: seq<Step>, p: nat, c: nat)
    requires ar.Valid() && Inv(ar, s) && Pipeline.Possible(ar, s, steps)
    requires c < |s.db.tasks| && s.db.tasks[c].status == Failed && Above(s.db.tasks, p, c)
    ensures p < |Pipeline.Run(ar, s, steps).db.tasks| && Pipeline.Run(ar, s, steps).db.tasks[p].status == Pending
  {
    var tasks, tasks' := s.db.tasks, Pipeline.Run(ar, s, steps).db.tasks;
    RunForward(ar, s, steps);
    RunInv(ar, s, steps);
    forall i | 0 <= i < |tasks| ensures SameShape(tasks[i], tasks'[i]) { assert Progress(tasks[i], tasks'[i]); }
    AboveStays(tasks, tasks', p, c);
    assert Progress(tasks[c], tasks'[c]);
    AncestorsPending(ar, tasks', p, c);
  }

  /** A planned expression is done exactly when its root is, failed exactly when some task is, never both, and in
      progress exactly when some task is done but neither holds. */
  lemma StatusExact(ar: Arithmetic, s: System, e: nat) returns (r: nat)
    requires ar.Valid() && Reachable(ar, s) && e < |s.db.expressions|
    requires ParseOf(ar, s.db.expressions[e].raw).Ok? && ParseOf(ar, s.db.expressions[e].raw).value.Binary?
    ensures IsRootOf(s.db.tasks, e, r)
    ensures s.db.expressions[e].status == ExprDone <==> s.db.tasks[r].status == Done
    ensures s.db.expressions[e].status == ExprFailed <==> SomeTask(s.db.tasks, e, Failed)
    ensures !(s.db.tasks[r].status == Done && SomeTask(s.db.tasks, e, Failed))
    ensures s.db.expressions[e].status == ExprInProgress
            <==> s.db.tasks[r].status != Done && !SomeTask(s.db.tasks, e, Failed) && SomeTask(s.db.tasks, e, Done)
  {
    ReachableInv(ar, s);
    assert ExpressionOk(ar, s.db.tasks, s.db.expressions, e);
    r :| IsRootOf(s.db.tasks, e, r) && StatusOk(s.db.tasks, e, s.db.expressions[e], r);
  }

  /** How a row of the outbox may change. */
  predicate RowProgress(a: OutboxRow, b: OutboxRow) {
    a.payload == b.payload &&
    match a.state
    case Unpublished => b.state != Pruned
    case Published => b.state != Unpublished
    case Pruned => b.state == Pruned
  }

  /** Statuses, arguments and results only move forward; terminal ones never change again. */
  ghost predicate Forward(s: System, s': System) {
    && |s.db.tasks| <= |s'.db.tasks| && |s.db.expressions| <= |s'.db.expressions|
    && (forall i :: 0 <= i < |s.db.tasks| ==> Progress(s.db.tasks[i], s'.db.tasks[i]))
    && (forall e :: 0 <= e < |s.db.expressions| ==> ExprProgress(s.db.expressions[e], s'.db.expressions[e]))
  }

  predicate RowsForward(outbox: seq<OutboxRow>, outbox': seq<OutboxRow>) {
    && |outbox| <= |outbox'|
    && forall row :: 0 <= row < |outbox| ==> RowProgress(outbox[row], outbox'[row])
  }

  lemma PrefixForward(outbox: seq<OutboxRow>, outbox': seq<OutboxRow>)
    requires outbox <= outbox'
    ensures RowsForward(outbox, outbox')
  {
  }

  lemma StepForward(ar: Arithmetic, s: System, step: Step)
    requires ar.Valid() && Inv(ar, s) && Enabled(ar, s, step)
    ensures Forward(s, Do(ar, s, step)) && RowsForward(s.db.outbox, Do(ar, s, step).db.outbox)
  {
    var s' := Do(ar, s, step);
    match step
    case SubmitText(raw) =>
      SubmitKeeps(ar, s.db, raw);
      PrefixForward(s.db.outbox, s'.db.outbox);
    case Apply(k, _) =>
      HandleKeeps(ar, s.db, s.resultFlow[k].body);
      PrefixForward(s.db.outbox, s'.db.outbox);
    case _ =>
  }

  /** How rows change over many steps: the payload stays, a published row is never unpublished again, and a
      pruned row stays pruned. */
  predicate RowsLater(outbox: seq<OutboxRow>, outbox': seq<OutboxRow>) {
    && |outbox| <= |outbox'|
    && forall row :: 0 <= row < |outbox| ==>
         && outbox'[row].payload == outbox[row].payload
         && (outbox[row].state != Unpublished ==> outbox'[row].state != Unpublished)
         && (outbox[row].state == Pruned ==> outbox'[row].state == Pruned)
  }

  lemma RowsLaterOn(a: seq<OutboxRow>, b: seq<OutboxRow>, c: seq<OutboxRow>)
    requires RowsForward(a, b) && RowsLater(b, c)
    ensures RowsLater(a, c)
  {
    forall row | 0 <= row < |a|
      ensures && c[row].payload == a[row].payload
              && (a[row].state != Unpublished ==> c[row].state != Unpublished)
              && (a[row].state == Pruned ==> c[row].state == Pruned)
    {
      assert RowProgress(a[row], b[row]);
    }
  }

  lemma {:induction false} RunForward(ar: Arithmetic, s: System, steps: seq<Step>)
    requires ar.Valid() && Inv(ar, s) && Pipeline.Possible(ar, s, steps)
    ensures Forward(s, Pipeline.Run(ar, s, steps))
    ensures RowsLater(s.db.outbox, Pipeline.Run(ar, s, steps).db.outbox)
    decreases |steps|
  {
    if steps != [] {
      var s1 := Do(ar, s, steps[0]);
      StepInv(ar, s, steps[0]);
      StepForward(ar, s, steps[0]);
      RunForward(ar, s1, steps[1..]);
      ForwardTwice(s, s1, Pipeline.Run(ar, s, steps));
      RowsLaterOn(s.db.outbox, s1.db.outbox, Pipeline.Run(ar, s, steps).db.outbox);
    }
  }

  lemma ForwardTwice(a: System, b: System, c: System)
    requires Forward(a, b) && Forward(b, c)
    ensures Forward(a, c)
  {
    forall i | 0 <= i < |a.db.tasks| ensures Progress(a.db.tasks[i], c.db.tasks[i]) {
      assert Progress(a.db.tasks[i], b.db.tasks[i]) && Progress(b.db.tasks[i], c.db.tasks[i]);
    }
    forall e | 0 <= e < |a.db.expressions| ensures ExprProgress(a.db.expressions[e], c.db.expressions[e]) {
      assert ExprProgress(a.db.expressions[e], b.db.expressions[e]) && ExprProgress(b.db.expressions[e], c.db.expressions[e]);
    }
  }

  // ---- Fan-in --------------------------------------------------------------------------------

  lemma HandleStaysInside(ar: Arithmetic, db: Db, r: ResultMessage, j: nat)
    requires DbOk(ar, db) && ReportOk(ar, db.tasks, r) && HandleResult(ar, db, r).Ok?
    requires j < |db.tasks| && db.tasks[j].expressionId != r.expressionId
    ensures j < |HandleResult(ar, db, r).value.tasks| && HandleResult(ar, db, r).value.tasks[j] == db.tasks[j]
  {
    var i := r.taskId;
    if !Settled(db.tasks[i]) && r.Computed? {
      ResultApplies(ar, db, i, r.result);
      assert TaskOk(ar, db.tasks, j);
      SlotsShareExpression(ar, db.tasks, i);
      assert SlotsFrom(db.tasks[j], i) == 0;
    }
  }

  /** A message changes only tasks of its own expression. */
  lemma ResultStaysInside(ar: Arithmetic, s: System, k: nat, confirmed: bool, j: nat)
    requires Inv(ar, s) && Enabled(ar, s, Apply(k, confirmed)) && j < |s.db.tasks|
    requires s.db.tasks[j].expressionId != s.resultFlow[k].body.expressionId
    ensures j < |Do(ar, s, Apply(k, confirmed)).db.tasks|
    ensures Do(ar, s, Apply(k, confirmed)).db.tasks[j] == s.db.tasks[j]
  {
    HandleStaysInside(ar, s.db, s.resultFlow[k].body, j);
  }

  /** What the invariant says of one task: a pending task waits for exactly `unmetDeps` > 0 slots, and a
      slot holds a value exactly when it is a literal or its producer is done, and then the producer's. */
  lemma FanInCounts(ar: Arithmetic, s: System, i: nat)
    requires ar.Valid() && Reachable(ar, s) && i < |s.db.tasks|
    ensures var tasks, t := s.db.tasks, s.db.tasks[i];
      && t.unmetDeps == Waiting(tasks, t.arg1TaskId) + Waiting(tasks, t.arg2TaskId)
      && (t.status == Pending <==> t.unmetDeps > 0)
      && (t.arg1TaskId == None ==> t.arg1Value.Some?) && (t.arg2TaskId == None ==> t.arg2Value.Some?)
      && (forall c :: t.arg1TaskId == Some(c) ==> c < i && (t.arg1Value.Some? <==> tasks[c].status == Done)
                                                  && (t.arg1Value.Some? ==> t.arg1Value == tasks[c].result))
      && (forall c :: t.arg2TaskId == Some(c) ==> c < i && (t.arg2Value.Some? <==> tasks[c].status == Done)
                                                  && (t.arg2Value.Some? ==> t.arg2Value == tasks[c].result))
  {
    ReachableInv(ar, s);
    var t := s.db.tasks[i];
    assert TaskOk(ar, s.db.tasks, i);
    if t.arg1TaskId.Some? { assert TaskOk(ar, s.db.tasks, t.arg1TaskId.value); }
    if t.arg2TaskId.Some? { assert TaskOk(ar, s.db.tasks, t.arg2TaskId.value); }
  }
}
