/** The rows of the main database and the messages of the broker.

    A task and an expression are known by their position in their table: all the program asks of an
    identifier is that it is fresh and never reused. */
module Entities {
  import opened Values

  datatype TaskStatus = Pending | Ready | Running | Done | Failed

  datatype Task = Task(
    expressionId: nat,
    op: Op,
    arg1Value: Option<Value>,
    arg1TaskId: Option<nat>,
    arg2Value: Option<Value>,
    arg2TaskId: Option<nat>,
    unmetDeps: int,
    status: TaskStatus,
    result: Option<Value>,
    isRoot: bool)

  datatype ExpressionStatus = ExprPending | ExprInProgress | ExprDone | ExprFailed

  datatype Expression = Expression(raw: string, status: ExpressionStatus, result: Option<Value>)

  datatype TaskMessage = TaskMessage(taskId: nat, expressionId: nat, op: Op, arg1: Value, arg2: Value)

  datatype ResultMessage =
    | Started(taskId: nat, expressionId: nat)
    | Computed(taskId: nat, expressionId: nat, result: Value)
    | Broken(taskId: nat, expressionId: nat)

  datatype Audit =
    | ExpressionSubmitted(expressionId: nat)
    | ExpressionDoneAudit(expressionId: nat)
    | ExpressionFailedAudit(expressionId: nat)
    | TaskDoneAudit(taskId: nat)
    | TaskFailedAudit(taskId: nat)

  datatype Payload = TaskPayload(message: TaskMessage) | AuditPayload(audit: Audit)

  /** A row's life in the outbox table; a pruned row is gone but its number is never reused. */
  datatype RowState = Unpublished | Published | Pruned

  datatype OutboxRow = OutboxRow(payload: Payload, state: RowState)

  // ---- Task graphs ---------------------------------------------------------------------------

  /** An argument is a literal, or the result of a task earlier in the table. */
  predicate SlotLinked(id: Option<nat>, value: Option<Value>, i: nat) {
    match id
    case None => value.Some?
    case Some(c) => c < i
  }

  predicate TaskLinked(tasks: seq<Task>, i: nat)
    requires i < |tasks|
  {
    SlotLinked(tasks[i].arg1TaskId, tasks[i].arg1Value, i) && SlotLinked(tasks[i].arg2TaskId, tasks[i].arg2Value, i)
  }

  predicate Linked(tasks: seq<Task>) {
    forall i :: 0 <= i < |tasks| ==> TaskLinked(tasks, i)
  }

  /** The tree a task stands for. */
  function Denote(tasks: seq<Task>, i: nat): Node
    requires Linked(tasks) && i < |tasks|
    decreases i
  {
    var t := tasks[i];
    assert TaskLinked(tasks, i);
    Binary(t.op,
      (match t.arg1TaskId case None => Leaf(t.arg1Value.value) case Some(c) => Denote(tasks, c)),
      (match t.arg2TaskId case None => Leaf(t.arg2Value.value) case Some(c) => Denote(tasks, c)))
  }

  /** Same operation, same dependencies, same literals. */
  predicate SameTree(t: Task, u: Task) {
    && t.op == u.op
    && t.arg1TaskId == u.arg1TaskId && t.arg2TaskId == u.arg2TaskId
    && (t.arg1TaskId == None ==> t.arg1Value == u.arg1Value)
    && (t.arg2TaskId == None ==> t.arg2Value == u.arg2Value)
  }

  /** What no update of a task changes. */
  predicate SameShape(t: Task, u: Task) {
    SameTree(t, u) && t.expressionId == u.expressionId && t.isRoot == u.isRoot
  }

  /** A task's tree depends only on the operations, links and literals up to it. */
  lemma {:induction false} DenoteShape(tasks: seq<Task>, tasks': seq<Task>, i: nat)
    requires Linked(tasks) && Linked(tasks') && i < |tasks| && i < |tasks'|
    requires forall k :: 0 <= k <= i ==> SameTree(tasks[k], tasks'[k])
    ensures Denote(tasks, i) == Denote(tasks', i)
    decreases i
  {
    var t := tasks[i];
    assert TaskLinked(tasks, i) && TaskLinked(tasks', i);
    assert SameTree(tasks[i], tasks'[i]);
    if t.arg1TaskId.Some? { DenoteShape(tasks, tasks', t.arg1TaskId.value); }
    if t.arg2TaskId.Some? { DenoteShape(tasks, tasks', t.arg2TaskId.value); }
  }
}
