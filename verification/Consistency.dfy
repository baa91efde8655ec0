/** What every committed state of the main database satisfies. */
module Consistency {
  import opened Values
  import opened Entities
  import opened Database
  import opened ShuntingYard

  // ---- Tasks ---------------------------------------------------------------------------------

  /** A slot is a literal, or holds its producer's result from the moment the producer is done. */
  predicate SlotOk(tasks: seq<Task>, exprId: nat, i: nat, id: Option<nat>, value: Option<Value>)
    requires i <= |tasks|
  {
    match id
    case None => value.Some?
    case Some(c) =>
      && c < i && tasks[c].expressionId == exprId && !tasks[c].isRoot
      && value == (if tasks[c].status == Done then tasks[c].result else None)
  }

  /** 1 for a slot whose producer is not done. */
  function Waiting(tasks: seq<Task>, id: Option<nat>): nat {
    if id.Some? && id.value < |tasks| && tasks[id.value].status != Done then 1 else 0
  }

  predicate Refers(t: Task, c: nat) {
    t.arg1TaskId == Some(c) || t.arg2TaskId == Some(c)
  }

  ghost predicate HasParent(tasks: seq<Task>, c: nat) {
    exists p :: c < p < |tasks| && Refers(tasks[p], c)
  }

  predicate EncodableIfSet(ar: Arithmetic, v: Option<Value>) {
    v.Some? ==> (ar.encodable)(v.value)
  }

  /** The task's computation gives this, its arguments being all there. */
  predicate Computes(ar: Arithmetic, t: Task, r: Result<Value>) {
    t.arg1Value.Some? && t.arg2Value.Some? && Compute(ar, t.op, t.arg1Value.value, t.arg2Value.value) == r
  }

  predicate Fails(ar: Arithmetic, t: Task) {
    t.arg1Value.Some? && t.arg2Value.Some? && Compute(ar, t.op, t.arg1Value.value, t.arg2Value.value).Err?
  }

  ghost predicate TaskOk(ar: Arithmetic, tasks: seq<Task>, i: nat)
    requires i < |tasks|
  {
    var t := tasks[i];
    && SlotOk(tasks, t.expressionId, i, t.arg1TaskId, t.arg1Value)
    && SlotOk(tasks, t.expressionId, i, t.arg2TaskId, t.arg2Value)
    && EncodableIfSet(ar, t.arg1Value) && EncodableIfSet(ar, t.arg2Value)
    && t.unmetDeps == Waiting(tasks, t.arg1TaskId) + Waiting(tasks, t.arg2TaskId)
    && (t.status == Pending <==> t.unmetDeps > 0)
    && (t.status == Done ==> t.result.Some? && (ar.encodable)(t.result.value) && Computes(ar, t, Ok(t.result.value)))
    && (t.status != Done ==> t.result == None)
    && (t.status == Failed ==> Fails(ar, t))
    && (!t.isRoot ==> HasParent(tasks, i))
  }

  ghost predicate TasksOk(ar: Arithmetic, tasks: seq<Task>) {
    forall i :: 0 <= i < |tasks| ==> TaskOk(ar, tasks, i)
  }

  ghost predicate OneRoot(tasks: seq<Task>) {
    forall i, j |
      && 0 <= i < |tasks| && 0 <= j < |tasks| && tasks[i].isRoot && tasks[j].isRoot
      && tasks[i].expressionId == tasks[j].expressionId :: i == j
  }

  lemma TasksLinked(ar: Arithmetic, tasks: seq<Task>)
    requires TasksOk(ar, tasks)
    ensures Linked(tasks)
  {
    forall i | 0 <= i < |tasks| ensures TaskLinked(tasks, i) {
      assert TaskOk(ar, tasks, i);
    }
  }

  // ---- Expressions ---------------------------------------------------------------------------

  predicate Belongs(t: Task, e: nat) {
    t.expressionId == e
  }

  ghost predicate SomeTask(tasks: seq<Task>, e: nat, status: TaskStatus) {
    exists i :: 0 <= i < |tasks| && Belongs(tasks[i], e) && tasks[i].status == status
  }

  ghost predicate IsRootOf(tasks: seq<Task>, e: nat, r: nat) {
    r < |tasks| && Belongs(tasks[r], e) && tasks[r].isRoot
  }

  /** The expression's status is a function of its tasks. */
  ghost predicate StatusOk(tasks: seq<Task>, e: nat, x: Expression, r: nat)
    requires r < |tasks|
  {
    && (x.status == ExprDone <==> tasks[r].status == Done)
    && x.result == tasks[r].result
    && (x.status == ExprFailed <==> SomeTask(tasks, e, Failed))
    && (x.status == ExprPending ==> !SomeTask(tasks, e, Done))
    && (x.status == ExprInProgress ==> SomeTask(tasks, e, Done))
  }

  ghost predicate ExpressionOk(ar: Arithmetic, tasks: seq<Task>, xs: seq<Expression>, e: nat)
    requires e < |xs| && Linked(tasks)
  {
    var ast := ParseOf(ar, xs[e].raw);
    && ast.Ok?
    && (ast.value.Leaf? ==>
         && xs[e].status == ExprDone && xs[e].result == Some(ast.value.value)
         && forall i :: 0 <= i < |tasks| ==> !Belongs(tasks[i], e))
    && (ast.value.Binary? ==>
         exists r :: IsRootOf(tasks, e, r) && Denote(tasks, r) == ast.value && StatusOk(tasks, e, xs[e], r))
  }

  ghost predicate ExpressionsOk(ar: Arithmetic, tasks: seq<Task>, xs: seq<Expression>)
    requires Linked(tasks)
  {
    && (forall i :: 0 <= i < |tasks| ==> tasks[i].expressionId < |xs|)
    && (forall e :: 0 <= e < |xs| ==> ExpressionOk(ar, tasks, xs, e))
  }

  // ---- The outbox ----------------------------------------------------------------------------

  /** Everything ever enqueued. */
  function Recorded(outbox: seq<OutboxRow>): multiset<Payload> {
    if outbox == [] then multiset{}
    else Recorded(outbox[..|outbox| - 1]) + multiset{outbox[|outbox| - 1].payload}
  }

  /** The message that hands out this task. */
  predicate IsMessageOf(tasks: seq<Task>, m: TaskMessage) {
    && m.taskId < |tasks|
    && var t := tasks[m.taskId];
      && t.status != Pending && t.expressionId == m.expressionId && t.op == m.op
      && t.arg1Value == Some(m.arg1) && t.arg2Value == Some(m.arg2)
  }

  function FailedCount(tasks: seq<Task>, e: nat): nat {
    if tasks == [] then 0
    else
      var t := tasks[|tasks| - 1];
      FailedCount(tasks[..|tasks| - 1], e) + (if Belongs(t, e) && t.status == Failed then 1 else 0)
  }

  /** How often a payload has been enqueued, as a function of the tables alone. */
  function Expected(tasks: seq<Task>, xs: seq<Expression>, p: Payload): nat {
    match p
    case TaskPayload(m) => if IsMessageOf(tasks, m) then 1 else 0
    case AuditPayload(a) =>
      match a
      case TaskDoneAudit(i) => if i < |tasks| && tasks[i].status == Done then 1 else 0
      case TaskFailedAudit(i) => if i < |tasks| && tasks[i].status == Failed then 1 else 0
      case ExpressionSubmitted(e) => if e < |xs| then 1 else 0
      case ExpressionDoneAudit(e) => if e < |xs| && xs[e].status == ExprDone then 1 else 0
      case ExpressionFailedAudit(e) => FailedCount(tasks, e)
  }

  ghost predicate OutboxOk(db: Db) {
    forall p :: Recorded(db.outbox)[p] == Expected(db.tasks, db.expressions, p)
  }

  /** The invariant of the database. */
  ghost predicate DbOk(ar: Arithmetic, db: Db) {
    && TasksOk(ar, db.tasks) && OneRoot(db.tasks)
    && Linked(db.tasks) && ExpressionsOk(ar, db.tasks, db.expressions)
    && OutboxOk(db)
  }

  // ---- Evolution -----------------------------------------------------------------------------

  function Rank(s: TaskStatus): nat {
    match s case Pending => 0 case Ready => 1 case Running => 2 case Done => 3 case Failed => 3
  }

  /** What a task may become: its shape is fixed, its status only advances, its arguments are fixed
      once it has left pending, and nothing changes once it is settled. */
  predicate Progress(t: Task, u: Task) {
    && SameShape(t, u) && Rank(t.status) <= Rank(u.status)
    && (t.status != Pending ==> u.arg1Value == t.arg1Value && u.arg2Value == t.arg2Value)
    && (Settled(t) ==> u == t)
  }

  predicate ExprProgress(x: Expression, y: Expression) {
    && x.raw == y.raw
    && (x.status == ExprDone || x.status == ExprFailed ==> y == x)
    && (x.status == ExprInProgress ==> y.status != ExprPending)
  }

  /** Statuses only move forward, rows are never removed, and settled rows never change. */
  ghost predicate Evolves(db: Db, db': Db) {
    && |db.tasks| <= |db'.tasks| && |db.expressions| <= |db'.expressions|
    && |db.outbox| <= |db'.outbox| && db'.outbox[..|db.outbox|] == db.outbox
    && (forall i :: |db.outbox| <= i < |db'.outbox| ==> db'.outbox[i].state == Unpublished)
    && (forall i :: 0 <= i < |db.tasks| ==> Progress(db.tasks[i], db'.tasks[i]))
    && (forall e :: 0 <= e < |db.expressions| ==> ExprProgress(db.expressions[e], db'.expressions[e]))
  }

  /** What a transaction must do to move the database forward. */
  lemma EvolvesBy(db: Db, db': Db, rows: seq<OutboxRow>)
    requires |db.tasks| <= |db'.tasks| && |db.expressions| <= |db'.expressions|
    requires db'.outbox == db.outbox + rows
    requires forall k :: 0 <= k < |rows| ==> rows[k].state == Unpublished
    requires forall i :: 0 <= i < |db.tasks| ==> Progress(db.tasks[i], db'.tasks[i])
    requires forall e :: 0 <= e < |db.expressions| ==> ExprProgress(db.expressions[e], db'.expressions[e])
    ensures Evolves(db, db')
  {
  }

  // ---- Facts about the outbox ----------------------------------------------------------------

  lemma {:induction false} RecordedConcat(a: seq<OutboxRow>, b: seq<OutboxRow>)
    ensures Recorded(a + b) == Recorded(a) + Recorded(b)
    decreases |b|
  {
    if b == [] {
      assert a + b == a;
    } else {
      assert (a + b)[..|a + b| - 1] == a + b[..|b| - 1];
      RecordedConcat(a, b[..|b| - 1]);
    }
  }

  lemma RecordedOne(row: OutboxRow)
    ensures Recorded([row]) == multiset{row.payload}
  {
    assert [row][..0] == [];
  }

  function AuditRow(a: Audit): OutboxRow {
    OutboxRow(AuditPayload(a), Unpublished)
  }

  lemma RecordedAudit(a: Audit)
    ensures AuditRows([a]) == [AuditRow(a)] && Recorded(AuditRows([a])) == multiset{AuditPayload(a)}
  {
    assert [a][..0] == [];
    assert AuditRows([]) + [AuditRow(a)] == [AuditRow(a)];
    RecordedOne(AuditRow(a));
  }

  lemma RecordedAudits(a: Audit, b: Audit)
    ensures AuditRows([a, b]) == [AuditRow(a), AuditRow(b)]
    ensures Recorded(AuditRows([a, b])) == multiset{AuditPayload(a), AuditPayload(b)}
  {
    assert [a, b][..1] == [a];
    RecordedAudit(a);
    RecordedOne(AuditRow(b));
    assert [AuditRow(a), AuditRow(b)] == [AuditRow(a)] + [AuditRow(b)];
    RecordedConcat([AuditRow(a)], [AuditRow(b)]);
  }

  /** A recorded payload is in some row. */
  lemma {:induction false} RecordedRow(outbox: seq<OutboxRow>, p: Payload) returns (row: nat)
    requires Recorded(outbox)[p] > 0
    ensures row < |outbox| && outbox[row].payload == p
    decreases |outbox|
  {
    row := |outbox| - 1;
    if outbox[row].payload != p { row := RecordedRow(outbox[..row], p); }
  }

  /** A row's payload is recorded. */
  lemma {:induction false} RowRecorded(outbox: seq<OutboxRow>, row: nat)
    requires row < |outbox|
    ensures Recorded(outbox)[outbox[row].payload] > 0
    decreases |outbox|
  {
    if row < |outbox| - 1 { RowRecorded(outbox[..|outbox| - 1], row); }
  }

  // ---- Facts about failures ------------------------------------------------------------------

  lemma {:induction false} FailedCountUpdate(tasks: seq<Task>, i: nat, u: Task, e: nat)
    requires i < |tasks| && tasks[i].status != Failed && u.expressionId == tasks[i].expressionId
    ensures FailedCount(tasks[i := u], e) ==
            FailedCount(tasks, e) + (if u.expressionId == e && u.status == Failed then 1 else 0)
    decreases |tasks|
  {
    var n := |tasks| - 1;
    if i == n {
      assert tasks[i := u][..n] == tasks[..n];
    } else {
      assert tasks[i := u][..n] == tasks[..n][i := u];
      FailedCountUpdate(tasks[..n], i, u, e);
    }
  }

  lemma {:induction false} FailedCountSame(tasks: seq<Task>, tasks': seq<Task>, e: nat)
    requires |tasks| <= |tasks'|
    requires forall i :: 0 <= i < |tasks| ==>
               tasks[i].expressionId == tasks'[i].expressionId && (tasks[i].status == Failed <==> tasks'[i].status == Failed)
    requires forall i :: |tasks| <= i < |tasks'| ==> tasks'[i].status != Failed
    ensures FailedCount(tasks', e) == FailedCount(tasks, e)
    decreases |tasks'|
  {
    if tasks' != [] {
      var n := |tasks'| - 1;
      if |tasks| <= n {
        FailedCountSame(tasks, tasks'[..n], e);
      } else {
        FailedCountSame(tasks[..n], tasks'[..n], e);
      }
    }
  }

  // ---- What a task that is not done does to the tasks above it --------------------------------

  /** The parent of a task that is not done is pending. */
  lemma ParentPending(ar: Arithmetic, tasks: seq<Task>, c: nat) returns (p: nat)
    requires TasksOk(ar, tasks) && c < |tasks| && !tasks[c].isRoot && tasks[c].status != Done
    ensures c < p < |tasks| && tasks[p].status == Pending && tasks[p].expressionId == tasks[c].expressionId
    ensures Refers(tasks[p], c)
  {
    assert TaskOk(ar, tasks, c);
    p :| c < p < |tasks| && Refers(tasks[p], c);
    assert TaskOk(ar, tasks, p);
  }

  /** While a task is not done, the root above it is pending. */
  lemma {:induction false} RootPending(ar: Arithmetic, tasks: seq<Task>, c: nat, r: nat)
    requires TasksOk(ar, tasks) && OneRoot(tasks)
    requires c < |tasks| && tasks[c].status != Done && c != r
    requires IsRootOf(tasks, tasks[c].expressionId, r)
    ensures tasks[r].status == Pending
    decreases |tasks| - c
  {
    assert !tasks[c].isRoot;
    var p := ParentPending(ar, tasks, c);
    if p != r { RootPending(ar, tasks, p, r); }
  }
}
