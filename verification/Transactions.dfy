/** Applying a message of an agent keeps the database consistent and only moves it forward. */
module Transactions {
  import opened Values
  import opened Entities
  import opened Database
  import opened ShuntingYard
  import opened Consistency
  import opened FanIn

  // ---- One task settles ----------------------------------------------------------------------

  /** Task `i` becomes done or failed; of the others, at most a pending one becomes ready. */
  ghost predicate OneSettles(tasks: seq<Task>, tasks': seq<Task>, i: nat) {
    && |tasks| == |tasks'| && i < |tasks| && !Settled(tasks[i]) && Settled(tasks'[i])
    && (forall j :: 0 <= j < |tasks| ==> Progress(tasks[j], tasks'[j]))
    && (forall j :: 0 <= j < |tasks| && j != i ==>
          (Settled(tasks'[j]) ==> Settled(tasks[j])) && tasks'[j].result == tasks[j].result)
  }

  /** The expression row after task `i` settled. */
  function RowAfter(xs: seq<Expression>, e: nat, t: Task): seq<Expression> {
    if t.status == Failed then FinalizeFailed(xs, e)
    else if t.isRoot && t.result.Some? then FinalizeDone(MarkInProgress(xs, e), e, t.result.value)
    else MarkInProgress(xs, e)
  }

  lemma RootsAfter(tasks: seq<Task>, tasks': seq<Task>)
    requires OneRoot(tasks) && |tasks| == |tasks'|
    requires forall j :: 0 <= j < |tasks| ==> SameShape(tasks[j], tasks'[j])
    ensures OneRoot(tasks')
  {
    forall i, j | && 0 <= i < |tasks'| && 0 <= j < |tasks'| && tasks'[i].isRoot && tasks'[j].isRoot
                  && tasks'[i].expressionId == tasks'[j].expressionId
      ensures i == j
    {
      assert SameShape(tasks[i], tasks'[i]) && SameShape(tasks[j], tasks'[j]);
    }
  }

  lemma SomeTaskAfter(tasks: seq<Task>, tasks': seq<Task>, i: nat, e: nat, status: TaskStatus)
    requires OneSettles(tasks, tasks', i) && (status == Done || status == Failed)
    ensures SomeTask(tasks', e, status) <==>
            SomeTask(tasks, e, status) || (Belongs(tasks[i], e) && tasks'[i].status == status)
  {
    assert Progress(tasks[i], tasks'[i]);
    if SomeTask(tasks, e, status) {
      var j :| 0 <= j < |tasks| && Belongs(tasks[j], e) && tasks[j].status == status;
      assert Progress(tasks[j], tasks'[j]);
      assert Belongs(tasks'[j], e) && tasks'[j].status == status;
    }
    if SomeTask(tasks', e, status) {
      var j :| 0 <= j < |tasks| && Belongs(tasks'[j], e) && tasks'[j].status == status;
      assert Progress(tasks[j], tasks'[j]);
      if j != i { assert Belongs(tasks[j], e) && tasks[j].status == status; }
    }
    if Belongs(tasks[i], e) && tasks'[i].status == status {
      assert Belongs(tasks'[i], e);
    }
  }

  /** No task of an expression has failed while its root can still move, and conversely. */
  lemma RootMoves(ar: Arithmetic, tasks: seq<Task>, i: nat, r: nat)
    requires TasksOk(ar, tasks) && OneRoot(tasks) && i < |tasks| && !Settled(tasks[i])
    requires IsRootOf(tasks, tasks[i].expressionId, r)
    ensures tasks[r].status != Done
    ensures r == i && tasks[i].status != Pending ==> !SomeTask(tasks, tasks[i].expressionId, Failed)
  {
    if i != r { RootPending(ar, tasks, i, r); }
    if r == i && SomeTask(tasks, tasks[i].expressionId, Failed) {
      var j :| 0 <= j < |tasks| && Belongs(tasks[j], tasks[i].expressionId) && tasks[j].status == Failed;
      RootPending(ar, tasks, j, r);
    }
  }

  lemma StatusAfter(ar: Arithmetic, tasks: seq<Task>, tasks': seq<Task>, xs: seq<Expression>, i: nat, e: nat, r: nat)
    requires TasksOk(ar, tasks) && OneRoot(tasks) && OneSettles(tasks, tasks', i)
    requires TasksOk(ar, tasks') && tasks[i].status != Pending
    requires e < |xs| && IsRootOf(tasks, e, r) && StatusOk(tasks, e, xs[e], r)
    ensures |RowAfter(xs, tasks[i].expressionId, tasks'[i])| == |xs|
    ensures StatusOk(tasks', e, RowAfter(xs, tasks[i].expressionId, tasks'[i])[e], r)
    ensures ExprProgress(xs[e], RowAfter(xs, tasks[i].expressionId, tasks'[i])[e])
  {
    SomeTaskAfter(tasks, tasks', i, e, Done);
    SomeTaskAfter(tasks, tasks', i, e, Failed);
    assert Progress(tasks[r], tasks'[r]) && Progress(tasks[i], tasks'[i]);
    assert TaskOk(ar, tasks, i) && TaskOk(ar, tasks', i) && TaskOk(ar, tasks, r) && TaskOk(ar, tasks', r);
    if e == tasks[i].expressionId {
      RootMoves(ar, tasks, i, r);
      assert i == r <==> tasks[i].isRoot;
    }
  }

  lemma ExpressionsAfter(ar: Arithmetic, tasks: seq<Task>, tasks': seq<Task>, xs: seq<Expression>, i: nat, e: nat)
    requires TasksOk(ar, tasks) && OneRoot(tasks) && OneSettles(tasks, tasks', i)
    requires TasksOk(ar, tasks') && tasks[i].status != Pending
    requires Linked(tasks) && Linked(tasks') && ExpressionsOk(ar, tasks, xs) && e < |xs|
    ensures |RowAfter(xs, tasks[i].expressionId, tasks'[i])| == |xs|
    ensures ExpressionOk(ar, tasks', RowAfter(xs, tasks[i].expressionId, tasks'[i]), e)
    ensures ExprProgress(xs[e], RowAfter(xs, tasks[i].expressionId, tasks'[i])[e])
  {
    var xs' := RowAfter(xs, tasks[i].expressionId, tasks'[i]);
    assert ExpressionOk(ar, tasks, xs, e);
    forall j | 0 <= j < |tasks| ensures SameShape(tasks[j], tasks'[j]) { assert Progress(tasks[j], tasks'[j]); }
    if ParseOf(ar, xs[e].raw).value.Leaf? {
      assert !Belongs(tasks[i], e);
      assert xs'[e] == xs[e];
      forall j | 0 <= j < |tasks'| ensures !Belongs(tasks'[j], e) { assert !Belongs(tasks[j], e); }
    } else {
      var r :| IsRootOf(tasks, e, r) && Denote(tasks, r) == ParseOf(ar, xs[e].raw).value
               && StatusOk(tasks, e, xs[e], r);
      StatusAfter(ar, tasks, tasks', xs, i, e, r);
      DenoteShape(tasks, tasks', r);
      assert IsRootOf(tasks', e, r);
    }
  }

  // ---- A result ------------------------------------------------------------------------------

  lemma AdvanceProgress(ar: Arithmetic, tasks: seq<Task>, i: nat, v: Value, j: nat)
    requires TasksOk(ar, tasks) && Awaited(tasks, i) && j < |tasks|
    ensures Progress(tasks[j], AdvanceAll(tasks, i, v)[j])
    ensures j != i ==>
              (Settled(AdvanceAll(tasks, i, v)[j]) ==> Settled(tasks[j]))
              && AdvanceAll(tasks, i, v)[j].result == tasks[j].result
  {
    assert TaskOk(ar, tasks, j);
  }

  lemma ParentKept(tasks: seq<Task>, tasks': seq<Task>, c: nat)
    requires |tasks| == |tasks'| && HasParent(tasks, c)
    requires forall j :: 0 <= j < |tasks| ==> SameShape(tasks[j], tasks'[j])
    ensures HasParent(tasks', c)
  {
    var p :| c < p < |tasks| && Refers(tasks[p], c);
    assert SameShape(tasks[p], tasks'[p]);
    assert Refers(tasks'[p], c);
  }

  /** One argument slot of task `j` after the result. */
  lemma SlotAfter(ar: Arithmetic, tasks: seq<Task>, i: nat, v: Value, j: nat, id: Option<nat>, value: Option<Value>)
    requires TasksOk(ar, tasks) && Awaited(tasks, i) && j < |tasks| && (ar.encodable)(v)
    requires tasks[j].status == Pending || id != Some(i)
    requires SlotOk(tasks, tasks[j].expressionId, j, id, value) && EncodableIfSet(ar, value)
    ensures var filled := if tasks[j].status == Pending then FilledBy(value, id, i, v) else value;
            && SlotOk(AdvanceAll(tasks, i, v), tasks[j].expressionId, j, id, filled)
            && EncodableIfSet(ar, filled)
    ensures Waiting(AdvanceAll(tasks, i, v), id) == Waiting(tasks, id) - (if id == Some(i) then 1 else 0)
  {
    if id.Some? { AdvanceProgress(ar, tasks, i, v, id.value); }
  }

  lemma AdvanceTaskOk(ar: Arithmetic, tasks: seq<Task>, i: nat, v: Value, j: nat)
    requires TasksOk(ar, tasks) && Awaited(tasks, i) && j < |tasks|
    requires Computes(ar, tasks[i], Ok(v)) && (ar.encodable)(v)
    ensures TaskOk(ar, AdvanceAll(tasks, i, v), j)
  {
    var t, tasks' := tasks[j], AdvanceAll(tasks, i, v);
    assert TaskOk(ar, tasks, j) && TaskOk(ar, tasks, i);
    SlotAfter(ar, tasks, i, v, j, t.arg1TaskId, t.arg1Value);
    SlotAfter(ar, tasks, i, v, j, t.arg2TaskId, t.arg2Value);
    if !t.isRoot {
      forall k | 0 <= k < |tasks| ensures SameShape(tasks[k], tasks'[k]) { AdvanceProgress(ar, tasks, i, v, k); }
      ParentKept(tasks, tasks', j);
    }
  }

  /** The result of a message that is as it should be: applying it cannot fail, and does this. */
  function AfterResult(db: Db, i: nat, v: Value): Db
    requires i < |db.tasks|
  {
    var e := db.tasks[i].expressionId;
    var tasks' := AdvanceAll(db.tasks, i, v);
    Db(tasks', RowAfter(db.expressions, e, tasks'[i]),
       db.outbox + ReadyRows(e, FanIn.DepsOf(FillOf(db.tasks, i, v), i))
       + AuditRows(ResultAudits(db, i)))
  }

  lemma ResultApplies(ar: Arithmetic, db: Db, i: nat, v: Value)
    requires TasksOk(ar, db.tasks) && Awaited(db.tasks, i) && (ar.encodable)(v)
    ensures ApplyResult(ar, db, i, db.tasks[i].expressionId, v) == Ok(AfterResult(db, i, v))
  {
    var e := db.tasks[i].expressionId;
    var f := FillOf(db.tasks, i, v);
    DepsComplete(ar, db.tasks, i, v);
    UnlockComplete(ar, Db(f.second, MarkInProgress(db.expressions, e), db.outbox), e, FanIn.DepsOf(f, i));
    TasksAfter(ar, db.tasks, i, v);
    FilledTask(ar, db.tasks, i, v, i);
  }

  lemma SlotsShareExpression(ar: Arithmetic, tasks: seq<Task>, i: nat)
    requires TasksOk(ar, tasks) && i < |tasks|
    ensures forall j :: 0 <= j < |tasks| && SlotsFrom(tasks[j], i) > 0 ==> tasks[j].expressionId == tasks[i].expressionId
  {
    forall j | 0 <= j < |tasks| && SlotsFrom(tasks[j], i) > 0 ensures tasks[j].expressionId == tasks[i].expressionId {
      assert TaskOk(ar, tasks, j);
    }
  }

  function ResultAudits(db: Db, i: nat): seq<Audit>
    requires i < |db.tasks|
  {
    if db.tasks[i].isRoot then [TaskDoneAudit(i), ExpressionDoneAudit(db.tasks[i].expressionId)] else [TaskDoneAudit(i)]
  }

  lemma RecordedParts(a: seq<OutboxRow>, b: seq<OutboxRow>, c: seq<OutboxRow>, p: Payload)
    ensures Recorded(a + b + c)[p] == Recorded(a)[p] + Recorded(b)[p] + Recorded(c)[p]
  {
    RecordedConcat(a + b, c);
    RecordedConcat(a, b);
  }

  lemma ResultAuditsCount(db: Db, i: nat, p: Payload)
    requires i < |db.tasks|
    ensures Recorded(AuditRows(ResultAudits(db, i)))[p]
            == (if p == AuditPayload(TaskDoneAudit(i))
                   || (db.tasks[i].isRoot && p == AuditPayload(ExpressionDoneAudit(db.tasks[i].expressionId))) then 1 else 0)
    ensures forall k :: 0 <= k < |AuditRows(ResultAudits(db, i))| ==> AuditRows(ResultAudits(db, i))[k].state == Unpublished
  {
    RecordedAudit(TaskDoneAudit(i));
    RecordedAudits(TaskDoneAudit(i), ExpressionDoneAudit(db.tasks[i].expressionId));
  }

  /** What a result adds to the outbox record. */
  function HandsOut(tasks: seq<Task>, tasks': seq<Task>, i: nat, p: Payload): nat {
    if p.TaskPayload? && p.message.taskId < |tasks| && Unlocked(tasks, p.message.taskId, i)
       && IsMessageOf(tasks', p.message) then 1 else 0
  }

  function Reports(tasks: seq<Task>, i: nat, p: Payload): nat
    requires i < |tasks|
  {
    if p == AuditPayload(TaskDoneAudit(i))
       || (tasks[i].isRoot && p == AuditPayload(ExpressionDoneAudit(tasks[i].expressionId))) then 1 else 0
  }

  lemma ReadyRowsCount(ar: Arithmetic, tasks: seq<Task>, i: nat, v: Value, p: Payload)
    requires TasksOk(ar, tasks) && Awaited(tasks, i) && (ar.encodable)(v)
    ensures Recorded(ReadyRows(tasks[i].expressionId, FanIn.DepsOf(FillOf(tasks, i, v), i)))[p]
            == HandsOut(tasks, AdvanceAll(tasks, i, v), i, p)
  {
    SlotsShareExpression(ar, tasks, i);
    RowsAfter(ar, tasks, i, v, p);
  }

  lemma RecordGrows(db: Db, i: nat, v: Value, p: Payload)
    requires i < |db.tasks|
    ensures Recorded(AfterResult(db, i, v).outbox)[p]
            == Recorded(db.outbox)[p]
               + Recorded(ReadyRows(db.tasks[i].expressionId, FanIn.DepsOf(FillOf(db.tasks, i, v), i)))[p]
               + Reports(db.tasks, i, p)
  {
    RecordedParts(db.outbox, ReadyRows(db.tasks[i].expressionId, FanIn.DepsOf(FillOf(db.tasks, i, v), i)),
                  AuditRows(ResultAudits(db, i)), p);
    ResultAuditsCount(db, i, p);
  }

  /** The outbox record after a result. */
  lemma RecordAfterResult(ar: Arithmetic, db: Db, i: nat, v: Value, p: Payload)
    requires DbOk(ar, db) && Awaited(db.tasks, i) && Computes(ar, db.tasks[i], Ok(v)) && (ar.encodable)(v)
    requires OneSettles(db.tasks, AdvanceAll(db.tasks, i, v), i)
    ensures Recorded(AfterResult(db, i, v).outbox)[p]
            == Expected(AfterResult(db, i, v).tasks, AfterResult(db, i, v).expressions, p)
  {
    RecordGrows(db, i, v, p);
    ReadyRowsCount(ar, db.tasks, i, v, p);
    ExpectedAfterResult(ar, db, i, v, p);
  }

  /** Which expressions a result makes done. */
  lemma DoneAfterResult(ar: Arithmetic, db: Db, i: nat, v: Value, x: nat)
    requires DbOk(ar, db) && Awaited(db.tasks, i) && Computes(ar, db.tasks[i], Ok(v)) && (ar.encodable)(v)
    requires OneSettles(db.tasks, AdvanceAll(db.tasks, i, v), i) && x < |db.expressions|
    ensures var tasks, e := db.tasks, db.tasks[i].expressionId;
            var xs' := RowAfter(db.expressions, e, AdvanceAll(tasks, i, v)[i]);
            && x < |xs'|
            && (xs'[x].status == ExprDone <==>
                  db.expressions[x].status == ExprDone || (tasks[i].isRoot && x == e))
            && !(db.expressions[x].status == ExprDone && tasks[i].isRoot && x == e)
  {
    if db.tasks[i].isRoot && x == db.tasks[i].expressionId {
      RootNotSettled(ar, db, i);
    }
  }

  /** The expression of an awaited root is neither done nor failed. */
  lemma RootNotSettled(ar: Arithmetic, db: Db, i: nat)
    requires DbOk(ar, db) && Awaited(db.tasks, i) && db.tasks[i].isRoot
    ensures db.tasks[i].expressionId < |db.expressions|
    ensures var x := db.expressions[db.tasks[i].expressionId]; x.status == ExprPending || x.status == ExprInProgress
  {
    var e := db.tasks[i].expressionId;
    assert ExpressionOk(ar, db.tasks, db.expressions, e);
    assert Belongs(db.tasks[i], e);
    var r :| IsRootOf(db.tasks, e, r) && StatusOk(db.tasks, e, db.expressions[e], r);
    assert r == i;
    RootMoves(ar, db.tasks, i, r);
  }

  lemma ResultTasks(ar: Arithmetic, tasks: seq<Task>, i: nat, v: Value)
    requires TasksOk(ar, tasks) && OneRoot(tasks) && Awaited(tasks, i) && Computes(ar, tasks[i], Ok(v)) && (ar.encodable)(v)
    ensures var tasks' := AdvanceAll(tasks, i, v);
            TasksOk(ar, tasks') && OneRoot(tasks') && Linked(tasks') && OneSettles(tasks, tasks', i)
  {
    var tasks' := AdvanceAll(tasks, i, v);
    forall j | 0 <= j < |tasks'| ensures TaskOk(ar, tasks', j) {
      AdvanceTaskOk(ar, tasks, i, v, j);
    }
    forall j | 0 <= j < |tasks|
      ensures Progress(tasks[j], tasks'[j])
      ensures j != i ==> (Settled(tasks'[j]) ==> Settled(tasks[j])) && tasks'[j].result == tasks[j].result
    {
      AdvanceProgress(ar, tasks, i, v, j);
    }
    TasksLinked(ar, tasks');
    RootsAfter(tasks, tasks');
  }

  /** The expressions follow a task that settles. */
  lemma SettleExpressions(ar: Arithmetic, tasks: seq<Task>, tasks': seq<Task>, xs: seq<Expression>, i: nat)
    requires TasksOk(ar, tasks) && OneRoot(tasks) && OneSettles(tasks, tasks', i)
    requires TasksOk(ar, tasks') && tasks[i].status != Pending
    requires Linked(tasks) && Linked(tasks') && ExpressionsOk(ar, tasks, xs)
    ensures ExpressionsOk(ar, tasks', RowAfter(xs, tasks[i].expressionId, tasks'[i]))
    ensures var xs' := RowAfter(xs, tasks[i].expressionId, tasks'[i]);
            |xs'| == |xs| && forall x :: 0 <= x < |xs| ==> ExprProgress(xs[x], xs'[x])
  {
    var xs' := RowAfter(xs, tasks[i].expressionId, tasks'[i]);
    assert |xs'| == |xs|;
    forall x | 0 <= x < |xs|
      ensures ExpressionOk(ar, tasks', xs', x) && ExprProgress(xs[x], xs'[x])
    {
      ExpressionsAfter(ar, tasks, tasks', xs, i, x);
    }
    forall j | 0 <= j < |tasks'| ensures tasks'[j].expressionId < |xs'| { assert Progress(tasks[j], tasks'[j]); }
  }

  lemma AuditsAfterResult(ar: Arithmetic, db: Db, i: nat, v: Value, p: Payload)
    requires DbOk(ar, db) && Awaited(db.tasks, i) && Computes(ar, db.tasks[i], Ok(v)) && (ar.encodable)(v)
    requires p.AuditPayload?
    requires OneSettles(db.tasks, AdvanceAll(db.tasks, i, v), i)
    ensures
      var tasks, tasks', e := db.tasks, AdvanceAll(db.tasks, i, v), db.tasks[i].expressionId;
      Expected(tasks', RowAfter(db.expressions, e, tasks'[i]), p)
      == Expected(tasks, db.expressions, p) + HandsOut(tasks, tasks', i, p) + Reports(tasks, i, p)
  {
    var tasks, tasks', xs := db.tasks, AdvanceAll(db.tasks, i, v), db.expressions;
    match p.audit
    case ExpressionFailedAudit(x) => FailedCountSame(tasks, tasks', x);
    case ExpressionDoneAudit(x) => if x < |xs| { DoneAfterResult(ar, db, i, v, x); }
    case TaskDoneAudit(j) => if j < |tasks| { AdvanceProgress(ar, tasks, i, v, j); }
    case TaskFailedAudit(j) => if j < |tasks| { AdvanceProgress(ar, tasks, i, v, j); }
    case ExpressionSubmitted(_) =>
  }

  lemma MessagesAfterResult(ar: Arithmetic, tasks: seq<Task>, i: nat, v: Value, m: TaskMessage)
    requires TasksOk(ar, tasks) && Awaited(tasks, i) && (ar.encodable)(v)
    ensures (if IsMessageOf(AdvanceAll(tasks, i, v), m) then 1 else 0)
            == (if IsMessageOf(tasks, m) then 1 else 0) + HandsOut(tasks, AdvanceAll(tasks, i, v), i, TaskPayload(m))
  {
    if m.taskId < |tasks| {
      assert TaskOk(ar, tasks, m.taskId);
      AdvanceProgress(ar, tasks, i, v, m.taskId);
    }
  }

  /** How the expected record changes with a result. */
  lemma ExpectedAfterResult(ar: Arithmetic, db: Db, i: nat, v: Value, p: Payload)
    requires DbOk(ar, db) && Awaited(db.tasks, i) && Computes(ar, db.tasks[i], Ok(v)) && (ar.encodable)(v)
    requires OneSettles(db.tasks, AdvanceAll(db.tasks, i, v), i)
    ensures
      var tasks, tasks', e := db.tasks, AdvanceAll(db.tasks, i, v), db.tasks[i].expressionId;
      Expected(tasks', RowAfter(db.expressions, e, tasks'[i]), p)
      == Expected(tasks, db.expressions, p) + HandsOut(tasks, tasks', i, p) + Reports(tasks, i, p)
  {
    match p
    case TaskPayload(m) => MessagesAfterResult(ar, db.tasks, i, v, m);
    case AuditPayload(_) => AuditsAfterResult(ar, db, i, v, p);
  }

  /** Applying a result keeps the database consistent and moves it forward. */
  lemma ResultKeeps(ar: Arithmetic, db: Db, i: nat, v: Value)
    requires DbOk(ar, db) && Awaited(db.tasks, i) && Computes(ar, db.tasks[i], Ok(v)) && (ar.encodable)(v)
    ensures DbOk(ar, AfterResult(db, i, v)) && Evolves(db, AfterResult(db, i, v))
    ensures OneSettles(db.tasks, AfterResult(db, i, v).tasks, i)
  {
    var db' := AfterResult(db, i, v);
    ResultTasks(ar, db.tasks, i, v);
    SettleExpressions(ar, db.tasks, db'.tasks, db.expressions, i);
    forall p ensures Recorded(db'.outbox)[p] == Expected(db'.tasks, db'.expressions, p) {
      RecordAfterResult(ar, db, i, v, p);
    }
    ResultRows(db, i, v);
    EvolvesBy(db, db', ResultRowsOf(db, i, v));
  }

  function ResultRowsOf(db: Db, i: nat, v: Value): seq<OutboxRow>
    requires i < |db.tasks|
  {
    ReadyRows(db.tasks[i].expressionId, FanIn.DepsOf(FillOf(db.tasks, i, v), i)) + AuditRows(ResultAudits(db, i))
  }

  lemma ResultRows(db: Db, i: nat, v: Value)
    requires i < |db.tasks|
    ensures AfterResult(db, i, v).outbox == db.outbox + ResultRowsOf(db, i, v)
    ensures forall k :: 0 <= k < |ResultRowsOf(db, i, v)| ==> ResultRowsOf(db, i, v)[k].state == Unpublished
  {
    var ready := ReadyRows(db.tasks[i].expressionId, FanIn.DepsOf(FillOf(db.tasks, i, v), i));
    ReadyRowsFresh(db.tasks[i].expressionId, FanIn.DepsOf(FillOf(db.tasks, i, v), i));
    ResultAuditsCount(db, i, AuditPayload(TaskDoneAudit(i)));
    RowsAssoc(db.outbox, ready, AuditRows(ResultAudits(db, i)));
  }

  // ---- A failure, and a start ----------------------------------------------------------------

  /** One row changes, and not to done: the other rows stay as they should be. */
  lemma UpdateTaskOk(ar: Arithmetic, tasks: seq<Task>, i: nat, status: TaskStatus, j: nat)
    requires TasksOk(ar, tasks) && Awaited(tasks, i) && j < |tasks|
    requires status == Running || (status == Failed && Fails(ar, tasks[i]))
    ensures TaskOk(ar, tasks[i := tasks[i].(status := status)], j)
    ensures Progress(tasks[j], tasks[i := tasks[i].(status := status)][j])
  {
    var tasks' := tasks[i := tasks[i].(status := status)];
    var t := tasks[j];
    assert TaskOk(ar, tasks, j) && TaskOk(ar, tasks, i);
    UpdateSlot(tasks, i, status, j, t.expressionId, t.arg1TaskId, t.arg1Value);
    UpdateSlot(tasks, i, status, j, t.expressionId, t.arg2TaskId, t.arg2Value);
    if !t.isRoot { ParentKept(tasks, tasks', j); }
  }

  /** A slot does not notice when another task changes, but not to or from done. */
  lemma UpdateSlot(tasks: seq<Task>, i: nat, status: TaskStatus, j: nat, e: nat, id: Option<nat>, value: Option<Value>)
    requires i < |tasks| && j < |tasks| && tasks[i].status != Done && status != Done
    requires SlotOk(tasks, e, j, id, value)
    ensures var tasks' := tasks[i := tasks[i].(status := status)];
            SlotOk(tasks', e, j, id, value) && Waiting(tasks', id) == Waiting(tasks, id)
  {
  }

  lemma UpdateTasks(ar: Arithmetic, tasks: seq<Task>, i: nat, status: TaskStatus)
    requires TasksOk(ar, tasks) && OneRoot(tasks) && Awaited(tasks, i)
    requires status == Running || (status == Failed && Fails(ar, tasks[i]))
    ensures var tasks' := tasks[i := tasks[i].(status := status)];
            && TasksOk(ar, tasks') && OneRoot(tasks') && Linked(tasks')
            && forall j :: 0 <= j < |tasks| ==> Progress(tasks[j], tasks'[j])
  {
    var tasks' := tasks[i := tasks[i].(status := status)];
    forall j | 0 <= j < |tasks| ensures TaskOk(ar, tasks', j) && Progress(tasks[j], tasks'[j]) {
      UpdateTaskOk(ar, tasks, i, status, j);
    }
    TasksLinked(ar, tasks');
    RootsAfter(tasks, tasks');
  }

  lemma FailureExpected(ar: Arithmetic, db: Db, i: nat, p: Payload)
    requires DbOk(ar, db) && Awaited(db.tasks, i) && Fails(ar, db.tasks[i])
    ensures
      var e := db.tasks[i].expressionId;
      var tasks' := db.tasks[i := db.tasks[i].(status := Failed)];
      Expected(tasks', FinalizeFailed(db.expressions, e), p) == Expected(db.tasks, db.expressions, p)
        + (if p == AuditPayload(TaskFailedAudit(i)) || p == AuditPayload(ExpressionFailedAudit(e)) then 1 else 0)
  {
    if p.AuditPayload? && p.audit.ExpressionFailedAudit? {
      FailedCountUpdate(db.tasks, i, db.tasks[i].(status := Failed), p.audit.expressionId);
    }
  }

  /** Applying a failure keeps the database consistent and moves it forward. */
  lemma FailureKeeps(ar: Arithmetic, db: Db, i: nat)
    requires DbOk(ar, db) && Awaited(db.tasks, i) && Fails(ar, db.tasks[i])
    ensures var db' := ApplyFailure(db, i, db.tasks[i].expressionId);
            DbOk(ar, db') && Evolves(db, db') && OneSettles(db.tasks, db'.tasks, i)
  {
    var db' := ApplyFailure(db, i, db.tasks[i].expressionId);
    FailureTasks(ar, db.tasks, i);
    SettleExpressions(ar, db.tasks, db'.tasks, db.expressions, i);
    FailureRecord(ar, db, i);
    FailureEvolves(db, i);
  }

  lemma FailureTasks(ar: Arithmetic, tasks: seq<Task>, i: nat)
    requires TasksOk(ar, tasks) && OneRoot(tasks) && Awaited(tasks, i) && Fails(ar, tasks[i])
    ensures var tasks' := tasks[i := tasks[i].(status := Failed)];
            TasksOk(ar, tasks') && OneRoot(tasks') && Linked(tasks') && OneSettles(tasks, tasks', i)
  {
    UpdateTasks(ar, tasks, i, Failed);
  }

  lemma FailureEvolves(db: Db, i: nat)
    requires Awaited(db.tasks, i)
    requires OneSettles(db.tasks, db.tasks[i := db.tasks[i].(status := Failed)], i)
    requires forall x :: 0 <= x < |db.expressions| ==>
               ExprProgress(db.expressions[x], FinalizeFailed(db.expressions, db.tasks[i].expressionId)[x])
    ensures Evolves(db, ApplyFailure(db, i, db.tasks[i].expressionId))
  {
    var e := db.tasks[i].expressionId;
    RecordedAudits(TaskFailedAudit(i), ExpressionFailedAudit(e));
    EvolvesBy(db, ApplyFailure(db, i, e), AuditRows([TaskFailedAudit(i), ExpressionFailedAudit(e)]));
  }

  lemma FailureRecord(ar: Arithmetic, db: Db, i: nat)
    requires DbOk(ar, db) && Awaited(db.tasks, i) && Fails(ar, db.tasks[i])
    ensures OutboxOk(ApplyFailure(db, i, db.tasks[i].expressionId))
  {
    var e := db.tasks[i].expressionId;
    var db' := ApplyFailure(db, i, e);
    RecordedAudits(TaskFailedAudit(i), ExpressionFailedAudit(e));
    forall p ensures Recorded(db'.outbox)[p] == Expected(db'.tasks, db'.expressions, p) {
      RecordedConcat(db.outbox, AuditRows([TaskFailedAudit(i), ExpressionFailedAudit(e)]));
      FailureExpected(ar, db, i, p);
    }
  }

  lemma StartedExpressions(ar: Arithmetic, db: Db, i: nat, x: nat)
    requires DbOk(ar, db) && Awaited(db.tasks, i) && x < |db.expressions|
    requires Linked(db.tasks[i := db.tasks[i].(status := Running)])
    ensures ExpressionOk(ar, db.tasks[i := db.tasks[i].(status := Running)], db.expressions, x)
  {
    var tasks, xs := db.tasks, db.expressions;
    var tasks' := tasks[i := tasks[i].(status := Running)];
    assert ExpressionOk(ar, tasks, xs, x);
    if ParseOf(ar, xs[x].raw).value.Leaf? {
      forall j | 0 <= j < |tasks'| ensures !Belongs(tasks'[j], x) { assert !Belongs(tasks[j], x); }
    } else {
      var r :| IsRootOf(tasks, x, r) && Denote(tasks, r) == ParseOf(ar, xs[x].raw).value && StatusOk(tasks, x, xs[x], r);
      DenoteShape(tasks, tasks', r);
      SameSettled(tasks, tasks', x, Done);
      SameSettled(tasks, tasks', x, Failed);
      assert IsRootOf(tasks', x, r) && StatusOk(tasks', x, xs[x], r);
    }
  }

  lemma SameSettled(tasks: seq<Task>, tasks': seq<Task>, e: nat, status: TaskStatus)
    requires |tasks| <= |tasks'|
    requires forall j :: 0 <= j < |tasks| ==>
               tasks[j].expressionId == tasks'[j].expressionId && (tasks[j].status == status <==> tasks'[j].status == status)
    requires forall j :: |tasks| <= j < |tasks'| ==> !Belongs(tasks'[j], e) || tasks'[j].status != status
    ensures SomeTask(tasks', e, status) <==> SomeTask(tasks, e, status)
  {
    if SomeTask(tasks, e, status) {
      var j :| 0 <= j < |tasks| && Belongs(tasks[j], e) && tasks[j].status == status;
      assert Belongs(tasks'[j], e);
    }
    if SomeTask(tasks', e, status) {
      var j :| 0 <= j < |tasks'| && Belongs(tasks'[j], e) && tasks'[j].status == status;
      assert Belongs(tasks[j], e);
    }
  }

  lemma StartedExpected(db: Db, i: nat, p: Payload)
    requires Awaited(db.tasks, i)
    ensures Expected(db.tasks[i := db.tasks[i].(status := Running)], db.expressions, p)
            == Expected(db.tasks, db.expressions, p)
  {
    if p.AuditPayload? && p.audit.ExpressionFailedAudit? {
      FailedCountUpdate(db.tasks, i, db.tasks[i].(status := Running), p.audit.expressionId);
    }
  }

  /** A started message, however late and for whatever task, keeps the database consistent and moves it forward. */
  lemma StartedKeeps(ar: Arithmetic, db: Db, i: nat)
    requires DbOk(ar, db)
    ensures DbOk(ar, ApplyStarted(db, i)) && Evolves(db, ApplyStarted(db, i))
  {
    if Awaited(db.tasks, i) {
      AwaitedStarts(ar, db, i);
    } else {
      assert ApplyStarted(db, i) == db;
      EvolvesBy(db, db, []);
    }
  }

  lemma AwaitedStarts(ar: Arithmetic, db: Db, i: nat)
    requires DbOk(ar, db) && Awaited(db.tasks, i)
    ensures DbOk(ar, ApplyStarted(db, i)) && Evolves(db, ApplyStarted(db, i))
  {
    var db' := ApplyStarted(db, i);
    UpdateTasks(ar, db.tasks, i, Running);
    forall x | 0 <= x < |db.expressions| ensures ExpressionOk(ar, db'.tasks, db'.expressions, x) {
      StartedExpressions(ar, db, i, x);
    }
    forall p ensures Recorded(db'.outbox)[p] == Expected(db'.tasks, db'.expressions, p) {
      StartedExpected(db, i, p);
    }
  }
}
