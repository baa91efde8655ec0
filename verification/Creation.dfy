/** Storing a new expression keeps the database consistent and only moves it forward. */
module Creation {
  import opened Values
  import opened Entities
  import opened Planner
  import opened Database
  import opened ShuntingYard
  import opened Consistency
  import opened FanIn
  import opened Transactions

  // ---- A planned expression ------------------------------------------------------------------

  /** A new task that can start at once. */
  predicate Startable(t: Task) {
    t.unmetDeps == 0 && t.status == Pending
  }

  function StartTask(t: Task): Task {
    if Startable(t) then t.(status := Ready) else t
  }

  function StartFrom(tasks: seq<Task>, i: nat): seq<Task> {
    seq(|tasks|, k requires 0 <= k < |tasks| => if k >= i then StartTask(tasks[k]) else tasks[k])
  }

  /** Every new task that needs no other has its arguments. */
  predicate StartsComplete(ar: Arithmetic, tasks: seq<Task>, i: nat) {
    forall k :: i <= k < |tasks| && tasks[k].unmetDeps == 0 ==>
      && tasks[k].arg1Value.Some? && tasks[k].arg2Value.Some?
      && (ar.encodable)(tasks[k].arg1Value.value) && (ar.encodable)(tasks[k].arg2Value.value)
  }

  function StartRow(t: Task, k: nat, exprId: nat): seq<OutboxRow> {
    if t.unmetDeps == 0 && t.arg1Value.Some? && t.arg2Value.Some?
    then [OutboxRow(TaskPayload(TaskMessage(k, exprId, t.op, t.arg1Value.value, t.arg2Value.value)), Unpublished)]
    else []
  }

  function StartRows(tasks: seq<Task>, exprId: nat, i: nat): seq<OutboxRow>
    requires i <= |tasks|
    decreases |tasks| - i
  {
    if i == |tasks| then [] else StartRow(tasks[i], i, exprId) + StartRows(tasks, exprId, i + 1)
  }

  lemma {:induction false} StartRowsFresh(tasks: seq<Task>, exprId: nat, i: nat)
    requires i <= |tasks|
    ensures forall k :: 0 <= k < |StartRows(tasks, exprId, i)| ==> StartRows(tasks, exprId, i)[k].state == Unpublished
    decreases |tasks| - i
  {
    if i < |tasks| { StartRowsFresh(tasks, exprId, i + 1); }
  }

  lemma {:induction false} StartRowsSame(tasks: seq<Task>, tasks': seq<Task>, exprId: nat, i: nat)
    requires i <= |tasks| == |tasks'| && tasks[i..] == tasks'[i..]
    ensures StartRows(tasks, exprId, i) == StartRows(tasks', exprId, i)
    decreases |tasks| - i
  {
    if i < |tasks| {
      assert tasks[i] == tasks[i..][0] == tasks'[i];
      assert tasks[i + 1..] == tasks[i..][1..] == tasks'[i + 1..];
      StartRowsSame(tasks, tasks', exprId, i + 1);
    }
  }

  /** The database when the task at `i` has been looked at. */
  function StartOne(db: Db, exprId: nat, i: nat): Db
    requires i < |db.tasks|
  {
    if db.tasks[i].unmetDeps != 0 then db
    else db.(tasks := MarkTaskReady(db.tasks, i), outbox := db.outbox + StartRow(db.tasks[i], i, exprId))
  }

  lemma StartOneSteps(ar: Arithmetic, db: Db, exprId: nat, i: nat)
    requires i < |db.tasks| && StartsComplete(ar, db.tasks, i)
    ensures EnqueueReady(ar, db, exprId, i) == EnqueueReady(ar, StartOne(db, exprId, i), exprId, i + 1)
    ensures StartsComplete(ar, StartOne(db, exprId, i).tasks, i + 1)
  {
  }

  lemma StartOneStarts(db: Db, exprId: nat, i: nat)
    requires i < |db.tasks|
    ensures var db1 := StartOne(db, exprId, i);
            && |db1.tasks| == |db.tasks| && StartFrom(db1.tasks, i + 1) == StartFrom(db.tasks, i)
            && db1.expressions == db.expressions && db1.outbox == db.outbox + StartRow(db.tasks[i], i, exprId)
            && StartRows(db1.tasks, exprId, i + 1) == StartRows(db.tasks, exprId, i + 1)
  {
    var db1 := StartOne(db, exprId, i);
    assert db1.tasks[i + 1..] == db.tasks[i + 1..];
    StartRowsSame(db1.tasks, db.tasks, exprId, i + 1);
  }

  /** Enqueuing the startable tasks of a plan cannot fail, and does this. */
  lemma {:induction false} EnqueueReadyIs(ar: Arithmetic, db: Db, exprId: nat, i: nat)
    requires i <= |db.tasks| && StartsComplete(ar, db.tasks, i)
    ensures EnqueueReady(ar, db, exprId, i)
            == Ok(Db(StartFrom(db.tasks, i), db.expressions, db.outbox + StartRows(db.tasks, exprId, i)))
    decreases |db.tasks| - i
  {
    if i == |db.tasks| {
      assert StartFrom(db.tasks, i) == db.tasks;
      assert db.outbox + [] == db.outbox;
    } else {
      StartOneSteps(ar, db, exprId, i);
      StartOneStarts(db, exprId, i);
      EnqueueReadyIs(ar, StartOne(db, exprId, i), exprId, i + 1);
      RowsAssoc(db.outbox, StartRow(db.tasks[i], i, exprId), StartRows(db.tasks, exprId, i + 1));
    }
  }

  predicate StartHands(tasks: seq<Task>, exprId: nat, i: nat, p: Payload) {
    && p.TaskPayload? && i <= p.message.taskId < |tasks|
    && var t := tasks[p.message.taskId];
      && t.unmetDeps == 0 && p.message.expressionId == exprId && p.message.op == t.op
      && t.arg1Value == Some(p.message.arg1) && t.arg2Value == Some(p.message.arg2)
  }

  lemma RecordedOnTop(row: seq<OutboxRow>, rest: seq<OutboxRow>, p: Payload)
    requires |row| <= 1
    ensures Recorded(row + rest)[p] == Recorded(rest)[p] + (if row != [] && row[0].payload == p then 1 else 0)
  {
    RecordedConcat(row, rest);
    if row != [] {
      assert row == [row[0]];
      RecordedOne(row[0]);
    }
  }

  lemma StartHandsNext(tasks: seq<Task>, exprId: nat, i: nat, p: Payload)
    requires i < |tasks|
    ensures var row := StartRow(tasks[i], i, exprId);
            && |row| <= 1
            && (if row != [] && row[0].payload == p
                then StartHands(tasks, exprId, i, p) && !StartHands(tasks, exprId, i + 1, p)
                else StartHands(tasks, exprId, i, p) == StartHands(tasks, exprId, i + 1, p))
  {
  }

  /** How often the start of the tasks from `i` on hands out `p`. */
  function StartHand(tasks: seq<Task>, exprId: nat, i: nat, p: Payload): nat {
    if StartHands(tasks, exprId, i, p) then 1 else 0
  }

  lemma StartHandStep(tasks: seq<Task>, exprId: nat, i: nat, p: Payload, rest: seq<OutboxRow>)
    requires i < |tasks| && Recorded(rest)[p] == StartHand(tasks, exprId, i + 1, p)
    ensures Recorded(StartRow(tasks[i], i, exprId) + rest)[p] == StartHand(tasks, exprId, i, p)
  {
    StartHandsNext(tasks, exprId, i, p);
    RecordedOnTop(StartRow(tasks[i], i, exprId), rest, p);
  }

  lemma {:induction false} StartCount(tasks: seq<Task>, exprId: nat, i: nat, p: Payload)
    requires i <= |tasks|
    ensures Recorded(StartRows(tasks, exprId, i))[p] == StartHand(tasks, exprId, i, p)
    decreases |tasks| - i
  {
    if i == |tasks| {
      assert StartRows(tasks, exprId, i) == [];
    } else {
      var rest := StartRows(tasks, exprId, i + 1);
      StartCount(tasks, exprId, i + 1, p);
      StartHandStep(tasks, exprId, i, p, rest);
      assert StartRows(tasks, exprId, i) == StartRow(tasks[i], i, exprId) + rest;
    }
  }

  /** A planned task and the expression it is planned for. */
  ghost predicate PlannedFor(tasks: seq<Task>, plan: seq<Task>, ast: Node, exprId: nat) {
    ast.Binary? && plan == MarkRoot(Plan(ast, exprId, |tasks|))
  }

  lemma PlannedTask(tasks: seq<Task>, plan: seq<Task>, ast: Node, exprId: nat, k: nat)
    requires PlannedFor(tasks, plan, ast, exprId) && k < |plan|
    ensures TaskPlanned(plan[k].(isRoot := false), exprId, |tasks|, |tasks| + k)
    ensures plan[k].isRoot <==> k == |plan| - 1
    ensures |plan| == Operations(ast)
  {
    PlanStructure(ast, exprId, |tasks|, k);
  }

  /** A task that another one of the raw plan names has its parent in the stored plan. */
  lemma ParentAt(tasks: seq<Task>, raw: seq<Task>, k: nat, p: nat)
    requires k < p < |raw| && (raw[p].arg1TaskId == Some(|tasks| + k) || raw[p].arg2TaskId == Some(|tasks| + k))
    ensures HasParent(tasks + MarkRoot(raw), |tasks| + k)
  {
    var all := tasks + MarkRoot(raw);
    assert Refers(all[|tasks| + p], |tasks| + k);
  }

  lemma RawParent(ast: Node, exprId: nat, base: nat, k: nat) returns (p: nat)
    requires k + 1 < Operations(ast)
    ensures var raw := Plan(ast, exprId, base);
            k < p < |raw| && (raw[p].arg1TaskId == Some(base + k) || raw[p].arg2TaskId == Some(base + k))
  {
    PlanIsTree(ast, exprId, base, base + k);
    p := ReferencedBy(Plan(ast, exprId, base), base + k);
    PlanStructure(ast, exprId, base, p);
  }

  lemma PlannedParent(tasks: seq<Task>, plan: seq<Task>, ast: Node, exprId: nat, k: nat)
    requires PlannedFor(tasks, plan, ast, exprId) && k + 1 < |plan|
    ensures HasParent(tasks + plan, |tasks| + k)
  {
    var p := RawParent(ast, exprId, |tasks|, k);
    ParentAt(tasks, Plan(ast, exprId, |tasks|), k, p);
  }

  lemma {:induction false} PlanEncodable(ar: Arithmetic, n: Node, exprId: nat, base: nat, k: nat)
    requires LiteralsEncodable(ar, n) && k < Operations(n)
    ensures var t := Plan(n, exprId, base)[k]; EncodableIfSet(ar, t.arg1Value) && EncodableIfSet(ar, t.arg2Value)
    decreases n
  {
    var mid := base + Operations(n.left);
    if k < Operations(n.left) {
      PlanEncodable(ar, n.left, exprId, base, k);
    } else if k < Operations(n.left) + Operations(n.right) {
      PlanEncodable(ar, n.right, exprId, mid, k - Operations(n.left));
    }
  }

  /** The task table with a new plan, its startable tasks ready. */
  function WithPlan(tasks: seq<Task>, plan: seq<Task>): seq<Task> {
    StartFrom(tasks + plan, |tasks|)
  }

  lemma OldTaskOk(ar: Arithmetic, tasks: seq<Task>, plan: seq<Task>, j: nat)
    requires TasksOk(ar, tasks) && j < |tasks|
    ensures TaskOk(ar, WithPlan(tasks, plan), j)
  {
    var tasks' := WithPlan(tasks, plan);
    assert TaskOk(ar, tasks, j);
    assert tasks'[j] == tasks[j];
    if !tasks[j].isRoot {
      var p :| j < p < |tasks| && Refers(tasks[p], j);
      assert Refers(tasks'[p], j);
    }
  }

  lemma NewTaskOk(ar: Arithmetic, tasks: seq<Task>, plan: seq<Task>, ast: Node, exprId: nat, k: nat)
    requires PlannedFor(tasks, plan, ast, exprId) && k < |plan| && LiteralsEncodable(ar, ast)
    ensures TaskOk(ar, WithPlan(tasks, plan), |tasks| + k)
  {
    var tasks', j := WithPlan(tasks, plan), |tasks| + k;
    var t := plan[k];
    assert tasks'[j] == StartTask(t);
    PlannedTask(tasks, plan, ast, exprId, k);
    PlanEncodable(ar, ast, exprId, |tasks|, k);
    NewSlotOk(tasks, plan, ast, exprId, k, t.arg1TaskId, t.arg1Value);
    NewSlotOk(tasks, plan, ast, exprId, k, t.arg2TaskId, t.arg2Value);
    if k + 1 < |plan| { NewParent(tasks, plan, ast, exprId, k); }
  }

  lemma NewParent(tasks: seq<Task>, plan: seq<Task>, ast: Node, exprId: nat, k: nat)
    requires PlannedFor(tasks, plan, ast, exprId) && k + 1 < |plan|
    ensures HasParent(WithPlan(tasks, plan), |tasks| + k)
  {
    PlannedParent(tasks, plan, ast, exprId, k);
    var j := |tasks| + k;
    var p :| j < p < |tasks + plan| && Refers((tasks + plan)[p], j);
    assert Refers(WithPlan(tasks, plan)[p], j);
  }

  lemma NewSlotOk(tasks: seq<Task>, plan: seq<Task>, ast: Node, exprId: nat, k: nat, id: Option<nat>, value: Option<Value>)
    requires PlannedFor(tasks, plan, ast, exprId) && k < |plan|
    requires SlotPlanned(value, id, |tasks|, |tasks| + k)
    ensures SlotOk(WithPlan(tasks, plan), exprId, |tasks| + k, id, value)
    ensures Waiting(WithPlan(tasks, plan), id) == (if id.Some? then 1 else 0)
  {
    if id.Some? { PlannedTask(tasks, plan, ast, exprId, id.value - |tasks|); }
  }

  lemma WithPlanTasks(ar: Arithmetic, tasks: seq<Task>, plan: seq<Task>, ast: Node, exprId: nat)
    requires TasksOk(ar, tasks) && OneRoot(tasks) && PlannedFor(tasks, plan, ast, exprId) && LiteralsEncodable(ar, ast)
    requires forall j :: 0 <= j < |tasks| ==> tasks[j].expressionId < exprId
    ensures var tasks' := WithPlan(tasks, plan);
            TasksOk(ar, tasks') && OneRoot(tasks') && Linked(tasks')
  {
    var tasks' := WithPlan(tasks, plan);
    forall j | 0 <= j < |tasks'| ensures TaskOk(ar, tasks', j) {
      if j < |tasks| {
        OldTaskOk(ar, tasks, plan, j);
      } else {
        NewTaskOk(ar, tasks, plan, ast, exprId, j - |tasks|);
      }
    }
    TasksLinked(ar, tasks');
    forall j | |tasks| <= j < |tasks'| ensures tasks'[j].expressionId == exprId && (tasks'[j].isRoot <==> j == |tasks'| - 1) {
      PlannedTask(tasks, plan, ast, exprId, j - |tasks|);
    }
  }

  lemma OldExpressionOk(ar: Arithmetic, tasks: seq<Task>, plan: seq<Task>, ast: Node, xs: seq<Expression>, x: Expression, e: nat)
    requires Linked(tasks) && PlannedFor(tasks, plan, ast, |xs|) && e < |xs|
    requires Linked(WithPlan(tasks, plan)) && ExpressionOk(ar, tasks, xs, e)
    ensures ExpressionOk(ar, WithPlan(tasks, plan), xs + [x], e)
  {
    var tasks' := WithPlan(tasks, plan);
    forall j | |tasks| <= j < |tasks'| ensures !Belongs(tasks'[j], e) && tasks'[j].status != Done && tasks'[j].status != Failed {
      PlannedTask(tasks, plan, ast, |xs|, j - |tasks|);
    }
    if ParseOf(ar, xs[e].raw).value.Leaf? {
      forall j | 0 <= j < |tasks'| ensures !Belongs(tasks'[j], e) {
        if j < |tasks| { assert !Belongs(tasks[j], e); }
      }
    } else {
      var r :| IsRootOf(tasks, e, r) && Denote(tasks, r) == ParseOf(ar, xs[e].raw).value && StatusOk(tasks, e, xs[e], r);
      DenoteShape(tasks, tasks', r);
      SameSettled(tasks, tasks', e, Done);
      SameSettled(tasks, tasks', e, Failed);
      assert IsRootOf(tasks', e, r);
    }
  }

  /** The root of a stored plan stands for the planned tree. */
  lemma NewDenotes(tasks: seq<Task>, plan: seq<Task>, ast: Node, e: nat)
    requires Linked(tasks) && PlannedFor(tasks, plan, ast, e) && Linked(WithPlan(tasks, plan))
    ensures var tasks' := WithPlan(tasks, plan);
            tasks' != [] && Denote(tasks', |tasks'| - 1) == ast
  {
    var tasks', planned := WithPlan(tasks, plan), tasks + Plan(ast, e, |tasks|);
    PlanDenotes(tasks, ast, e, planned);
    forall j | 0 <= j < |tasks'| ensures SameTree(planned[j], tasks'[j]) {}
    DenoteShape(planned, tasks', |tasks'| - 1);
  }

  lemma NewExpressionOk(ar: Arithmetic, tasks: seq<Task>, plan: seq<Task>, ast: Node, xs: seq<Expression>, raw: string)
    requires Linked(tasks) && PlannedFor(tasks, plan, ast, |xs|) && ParseOf(ar, raw) == Ok(ast)
    requires Linked(WithPlan(tasks, plan))
    requires forall j :: 0 <= j < |tasks| ==> tasks[j].expressionId < |xs|
    ensures ExpressionOk(ar, WithPlan(tasks, plan), xs + [Expression(raw, ExprPending, None)], |xs|)
  {
    var tasks', e := WithPlan(tasks, plan), |xs|;
    var r := |tasks'| - 1;
    PlannedTask(tasks, plan, ast, e, |plan| - 1);
    NewDenotes(tasks, plan, ast, e);
    forall j | 0 <= j < |tasks'| && Belongs(tasks'[j], e) ensures tasks'[j].status != Done && tasks'[j].status != Failed {
      PlannedTask(tasks, plan, ast, e, j - |tasks|);
    }
    assert IsRootOf(tasks', e, r);
    assert StatusOk(tasks', e, Expression(raw, ExprPending, None), r);
  }

  /** The database after an expression with this plan was stored. */
  function AfterCreate(db: Db, raw: string, plan: seq<Task>): Db {
    var exprId := |db.expressions|;
    Db(WithPlan(db.tasks, plan), db.expressions + [Expression(raw, ExprPending, None)],
       db.outbox + StartRows(db.tasks + plan, exprId, |db.tasks|) + AuditRows([ExpressionSubmitted(exprId)]))
  }

  lemma CreateApplies(ar: Arithmetic, db: Db, raw: string, plan: seq<Task>, ast: Node)
    requires PlannedFor(db.tasks, plan, ast, |db.expressions|) && LiteralsEncodable(ar, ast)
    ensures CreateExpression(ar, db, raw, plan) == Ok(AfterCreate(db, raw, plan))
  {
    var exprId := |db.expressions|;
    var all := db.tasks + plan;
    forall k | |db.tasks| <= k < |all| && all[k].unmetDeps == 0
      ensures && all[k].arg1Value.Some? && all[k].arg2Value.Some?
              && (ar.encodable)(all[k].arg1Value.value) && (ar.encodable)(all[k].arg2Value.value)
    {
      PlannedTask(db.tasks, plan, ast, exprId, k - |db.tasks|);
      PlanEncodable(ar, ast, exprId, |db.tasks|, k - |db.tasks|);
    }
    var inserted := Db(all, db.expressions + [Expression(raw, ExprPending, None)], db.outbox);
    EnqueueReadyIs(ar, inserted, exprId, |db.tasks|);
  }

  lemma CreateExpected(ar: Arithmetic, db: Db, raw: string, plan: seq<Task>, ast: Node, p: Payload)
    requires DbOk(ar, db) && PlannedFor(db.tasks, plan, ast, |db.expressions|)
    ensures
      var exprId := |db.expressions|;
      Expected(WithPlan(db.tasks, plan), db.expressions + [Expression(raw, ExprPending, None)], p)
      == Expected(db.tasks, db.expressions, p)
         + (if StartHands(db.tasks + plan, exprId, |db.tasks|, p) then 1 else 0)
         + (if p == AuditPayload(ExpressionSubmitted(exprId)) then 1 else 0)
  {
    var tasks, exprId := db.tasks, |db.expressions|;
    var tasks' := WithPlan(tasks, plan);
    forall k | 0 <= k < |plan| ensures plan[k].status == Pending && plan[k].expressionId == exprId {
      PlannedTask(tasks, plan, ast, exprId, k);
    }
    match p
    case TaskPayload(m) =>
    case AuditPayload(a) =>
      match a
      case ExpressionFailedAudit(x) => FailedCountSame(tasks, tasks', x);
      case _ =>
  }

  lemma CreateExpressions(ar: Arithmetic, db: Db, raw: string, plan: seq<Task>, ast: Node)
    requires DbOk(ar, db) && PlannedFor(db.tasks, plan, ast, |db.expressions|)
    requires ParseOf(ar, raw) == Ok(ast) && Linked(WithPlan(db.tasks, plan))
    ensures ExpressionsOk(ar, WithPlan(db.tasks, plan), db.expressions + [Expression(raw, ExprPending, None)])
  {
    var exprId, x := |db.expressions|, Expression(raw, ExprPending, None);
    var tasks', xs' := WithPlan(db.tasks, plan), db.expressions + [x];
    forall e | 0 <= e < |xs'| ensures ExpressionOk(ar, tasks', xs', e) {
      if e < exprId {
        OldExpressionOk(ar, db.tasks, plan, ast, db.expressions, x, e);
      } else {
        NewExpressionOk(ar, db.tasks, plan, ast, db.expressions, raw);
      }
    }
    forall j | 0 <= j < |tasks'| ensures tasks'[j].expressionId < |xs'| {
      if j >= |db.tasks| { PlannedTask(db.tasks, plan, ast, exprId, j - |db.tasks|); }
    }
  }

  /** Storing a planned expression keeps the database consistent. */
  lemma CreateKeeps(ar: Arithmetic, db: Db, raw: string, plan: seq<Task>, ast: Node)
    requires DbOk(ar, db) && PlannedFor(db.tasks, plan, ast, |db.expressions|)
    requires ParseOf(ar, raw) == Ok(ast) && LiteralsEncodable(ar, ast)
    ensures DbOk(ar, AfterCreate(db, raw, plan)) && Evolves(db, AfterCreate(db, raw, plan))
  {
    WithPlanTasks(ar, db.tasks, plan, ast, |db.expressions|);
    CreateExpressions(ar, db, raw, plan, ast);
    CreateRecord(ar, db, raw, plan, ast);
    CreateEvolves(db, raw, plan);
  }

  lemma CreateRecord(ar: Arithmetic, db: Db, raw: string, plan: seq<Task>, ast: Node)
    requires DbOk(ar, db) && PlannedFor(db.tasks, plan, ast, |db.expressions|)
    ensures OutboxOk(AfterCreate(db, raw, plan))
  {
    var exprId, db' := |db.expressions|, AfterCreate(db, raw, plan);
    RecordedAudit(ExpressionSubmitted(exprId));
    forall p ensures Recorded(db'.outbox)[p] == Expected(db'.tasks, db'.expressions, p) {
      RecordedParts(db.outbox, StartRows(db.tasks + plan, exprId, |db.tasks|), AuditRows([ExpressionSubmitted(exprId)]), p);
      StartCount(db.tasks + plan, exprId, |db.tasks|, p);
      CreateExpected(ar, db, raw, plan, ast, p);
    }
  }

  lemma CreateEvolves(db: Db, raw: string, plan: seq<Task>)
    ensures Evolves(db, AfterCreate(db, raw, plan))
  {
    var starts := StartRows(db.tasks + plan, |db.expressions|, |db.tasks|);
    StartRowsFresh(db.tasks + plan, |db.expressions|, |db.tasks|);
    RecordedAudit(ExpressionSubmitted(|db.expressions|));
    RowsAssoc(db.outbox, starts, AuditRows([ExpressionSubmitted(|db.expressions|)]));
    EvolvesBy(db, AfterCreate(db, raw, plan), starts + AuditRows([ExpressionSubmitted(|db.expressions|)]));
  }

  // ---- An expression without operations ------------------------------------------------------

  lemma ImmediateExpected(db: Db, raw: string, v: Value, p: Payload)
    requires forall j :: 0 <= j < |db.tasks| ==> db.tasks[j].expressionId < |db.expressions|
    ensures
      var e := |db.expressions|;
      Expected(db.tasks, db.expressions + [Expression(raw, ExprDone, Some(v))], p) == Expected(db.tasks, db.expressions, p)
        + (if p == AuditPayload(ExpressionSubmitted(e)) || p == AuditPayload(ExpressionDoneAudit(e)) then 1 else 0)
  {
  }

  lemma OldExpressionKept(ar: Arithmetic, tasks: seq<Task>, xs: seq<Expression>, x: Expression, e: nat)
    requires Linked(tasks) && e < |xs| && ExpressionOk(ar, tasks, xs, e)
    ensures ExpressionOk(ar, tasks, xs + [x], e)
  {
    assert (xs + [x])[e] == xs[e];
  }

  lemma ImmediateExpressions(ar: Arithmetic, db: Db, raw: string, v: Value)
    requires DbOk(ar, db) && ParseOf(ar, raw) == Ok(Leaf(v))
    ensures ExpressionsOk(ar, db.tasks, db.expressions + [Expression(raw, ExprDone, Some(v))])
  {
    var e, x := |db.expressions|, Expression(raw, ExprDone, Some(v));
    var xs' := db.expressions + [x];
    forall k | 0 <= k < |xs'| ensures ExpressionOk(ar, db.tasks, xs', k) {
      if k < e {
        OldExpressionKept(ar, db.tasks, db.expressions, x, k);
      } else {
        forall j | 0 <= j < |db.tasks| ensures !Belongs(db.tasks[j], e) {}
      }
    }
  }

  lemma ImmediateRecord(ar: Arithmetic, db: Db, raw: string, v: Value)
    requires DbOk(ar, db)
    ensures OutboxOk(FinalizeImmediate(db, raw, v))
  {
    var e, db' := |db.expressions|, FinalizeImmediate(db, raw, v);
    RecordedAudits(ExpressionSubmitted(e), ExpressionDoneAudit(e));
    assert db'.expressions == db.expressions + [Expression(raw, ExprDone, Some(v))];
    forall p ensures Recorded(db'.outbox)[p] == Expected(db'.tasks, db'.expressions, p) {
      RecordedConcat(db.outbox, AuditRows([ExpressionSubmitted(e), ExpressionDoneAudit(e)]));
      ImmediateExpected(db, raw, v, p);
    }
  }

  /** Storing a literal as done keeps the database consistent. */
  lemma ImmediateKeeps(ar: Arithmetic, db: Db, raw: string, v: Value)
    requires DbOk(ar, db) && ParseOf(ar, raw) == Ok(Leaf(v))
    ensures DbOk(ar, FinalizeImmediate(db, raw, v)) && Evolves(db, FinalizeImmediate(db, raw, v))
  {
    ImmediateIs(db, raw, v);
    ImmediateExpressions(ar, db, raw, v);
    ImmediateRecord(ar, db, raw, v);
    ImmediateEvolves(db, raw, v);
  }

  lemma ImmediateIs(db: Db, raw: string, v: Value)
    ensures FinalizeImmediate(db, raw, v).tasks == db.tasks
    ensures FinalizeImmediate(db, raw, v).expressions == db.expressions + [Expression(raw, ExprDone, Some(v))]
  {
  }

  lemma ImmediateEvolves(db: Db, raw: string, v: Value)
    ensures Evolves(db, FinalizeImmediate(db, raw, v))
  {
    var e := |db.expressions|;
    ImmediateIs(db, raw, v);
    RecordedAudits(ExpressionSubmitted(e), ExpressionDoneAudit(e));
    EvolvesBy(db, FinalizeImmediate(db, raw, v), AuditRows([ExpressionSubmitted(e), ExpressionDoneAudit(e)]));
  }
}
