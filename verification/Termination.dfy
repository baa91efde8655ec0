/** Without faults every run ends, and where it ends exactly the expressions whose trees are expressible or
    divide by zero are finished. */
module Termination {
  import opened Values
  import opened Entities
  import opened Database
  import opened ShuntingYard
  import opened Consistency
  import opened FanIn
  import opened Transactions
  import opened Pipeline
  import opened Invariant
  import opened Outcome
  import opened Expressible
  import Broker

  // ---- Steps without faults ------------------------------------------------------------------

  /** Every publish is confirmed, nothing is redelivered, retried or redriven, and a delivery is
      dead-lettered only when its computed value cannot be encoded. */
  predicate FaultFree(ar: Arithmetic, s: System, step: Step) {
    match step
    case SubmitText(_) => false
    case RelayRow(_, confirmed) => confirmed
    case RelayCommit(_) => true
    case RelayAbort(_) => false
    case Prune(_) => true
    case TaskBroker(b) =>
      b.Deliver? || b.Ack? ||
      (b.ParkDead? && b.confirmed && b.k < |s.taskFlow|
       && s.taskFlow[b.k].place == Broker.Unacked(Broker.Announced) && Report(ar, s.taskFlow[b.k].body) == None)
    case ResultBroker(b) => b.Deliver? || b.Ack?
    case AgentStart(_, published) => published
    case AgentReport(_, confirmed) => confirmed
    case Apply(_, confirmed) => confirmed
  }

  // ---- The measure ---------------------------------------------------------------------------

  function TaskWeight(t: Task): nat {
    match t.status case Pending => 46 case Ready => 31 case Running => 30 case Done => 0 case Failed => 0
  }

  function RowWeight(row: OutboxRow, relayed: bool): nat {
    match row.state
    case Unpublished => if relayed then 2 else 15
    case Published => 1
    case Pruned => 0
  }

  function TaskCopyWeight(c: Broker.Copy<TaskMessage>): nat {
    match c.place
    case Main => 12
    case Unacked(Fresh) => 11
    case Unacked(Announced) => 6
    case Unacked(_) => 1
    case _ => 0
  }

  function ResultCopyWeight(c: Broker.Copy<ResultMessage>): nat {
    match c.place
    case Main => 4
    case Unacked(Fresh) => 3
    case Unacked(Announced) => 3
    case Unacked(_) => 1
    case _ => 0
  }

  function TasksWeight(tasks: seq<Task>): nat {
    if tasks == [] then 0 else TasksWeight(tasks[..|tasks| - 1]) + TaskWeight(tasks[|tasks| - 1])
  }

  function RowsWeight(rows: seq<OutboxRow>, relayed: set<nat>): nat {
    if rows == [] then 0
    else RowsWeight(rows[..|rows| - 1], relayed) + RowWeight(rows[|rows| - 1], |rows| - 1 in relayed)
  }

  function TaskFlowWeight(f: Broker.Flow<TaskMessage>): nat {
    if f == [] then 0 else TaskFlowWeight(f[..|f| - 1]) + TaskCopyWeight(f[|f| - 1])
  }

  function ResultFlowWeight(f: Broker.Flow<ResultMessage>): nat {
    if f == [] then 0 else ResultFlowWeight(f[..|f| - 1]) + ResultCopyWeight(f[|f| - 1])
  }

  function Measure(s: System): nat {
    TasksWeight(s.db.tasks) + RowsWeight(s.db.outbox, s.relayed)
    + TaskFlowWeight(s.taskFlow) + ResultFlowWeight(s.resultFlow)
  }

  // ---- Sums ----------------------------------------------------------------------------------

  lemma {:induction false} TaskFlowSet(f: Broker.Flow<TaskMessage>, k: nat, c: Broker.Copy<TaskMessage>)
    requires k < |f|
    ensures TaskFlowWeight(f[k := c]) + TaskCopyWeight(f[k]) == TaskFlowWeight(f) + TaskCopyWeight(c)
    decreases |f|
  {
    var n := |f| - 1;
    if k == n {
      assert f[k := c][..n] == f[..n];
    } else {
      assert f[k := c][..n] == f[..n][k := c];
      TaskFlowSet(f[..n], k, c);
    }
  }

  lemma TaskFlowAdd(f: Broker.Flow<TaskMessage>, c: Broker.Copy<TaskMessage>)
    ensures TaskFlowWeight(f + [c]) == TaskFlowWeight(f) + TaskCopyWeight(c)
  {
    assert (f + [c])[..|f|] == f;
  }

  lemma {:induction false} ResultFlowSet(f: Broker.Flow<ResultMessage>, k: nat, c: Broker.Copy<ResultMessage>)
    requires k < |f|
    ensures ResultFlowWeight(f[k := c]) + ResultCopyWeight(f[k]) == ResultFlowWeight(f) + ResultCopyWeight(c)
    decreases |f|
  {
    var n := |f| - 1;
    if k == n {
      assert f[k := c][..n] == f[..n];
    } else {
      assert f[k := c][..n] == f[..n][k := c];
      ResultFlowSet(f[..n], k, c);
    }
  }

  lemma ResultFlowAdd(f: Broker.Flow<ResultMessage>, c: Broker.Copy<ResultMessage>)
    ensures ResultFlowWeight(f + [c]) == ResultFlowWeight(f) + ResultCopyWeight(c)
  {
    assert (f + [c])[..|f|] == f;
  }

  /** One row changes state, or whether its publish is confirmed. */
  lemma {:induction false} RowsSet(rows: seq<OutboxRow>, relayed: set<nat>, row: nat, state: RowState, relayed': set<nat>)
    requires row < |rows|
    requires forall r :: r != row ==> (r in relayed <==> r in relayed')
    ensures RowsWeight(SetRow(rows, row, state), relayed') + RowWeight(rows[row], row in relayed)
            == RowsWeight(rows, relayed) + RowWeight(SetRow(rows, row, state)[row], row in relayed')
    decreases |rows|
  {
    var n := |rows| - 1;
    if row == n {
      assert SetRow(rows, row, state)[..n] == rows[..n];
      RowsAgree(rows[..n], relayed, relayed');
    } else {
      assert SetRow(rows, row, state)[..n] == SetRow(rows[..n], row, state);
      RowsSet(rows[..n], relayed, row, state, relayed');
    }
  }

  lemma {:induction false} RowsAgree(rows: seq<OutboxRow>, relayed: set<nat>, relayed': set<nat>)
    requires forall r :: 0 <= r < |rows| ==> (r in relayed <==> r in relayed')
    ensures RowsWeight(rows, relayed) == RowsWeight(rows, relayed')
    decreases |rows|
  {
    if rows != [] { RowsAgree(rows[..|rows| - 1], relayed, relayed'); }
  }

  /** New rows weigh at most 15 each. */
  lemma {:induction false} RowsAppend(rows: seq<OutboxRow>, more: seq<OutboxRow>, relayed: set<nat>)
    ensures RowsWeight(rows + more, relayed) <= RowsWeight(rows, relayed) + 15 * |more|
    decreases |more|
  {
    if more == [] {
      assert rows + more == rows;
    } else {
      var n := |more| - 1;
      assert (rows + more)[..|rows + more| - 1] == rows + more[..n];
      RowsAppend(rows, more[..n], relayed);
    }
  }

  lemma {:induction false} TasksSet(tasks: seq<Task>, i: nat, t: Task)
    requires i < |tasks|
    ensures TasksWeight(tasks[i := t]) + TaskWeight(tasks[i]) == TasksWeight(tasks) + TaskWeight(t)
    decreases |tasks|
  {
    var n := |tasks| - 1;
    if i == n {
      assert tasks[i := t][..n] == tasks[..n];
    } else {
      assert tasks[i := t][..n] == tasks[..n][i := t];
      TasksSet(tasks[..n], i, t);
    }
  }

  // ---- A result pays for what it enqueues ----------------------------------------------------

  function UnlockedCount(tasks: seq<Task>, i: nat, n: nat): nat
    requires n <= |tasks|
  {
    if n == 0 then 0 else UnlockedCount(tasks, i, n - 1) + (if Unlocked(tasks, n - 1, i) then 1 else 0)
  }

  /** How many rows with a zero counter a list of fills has. */
  function ZeroRows(deps: seq<DepRow>): nat {
    if deps == [] then 0 else ZeroRows(deps[..|deps| - 1]) + (if deps[|deps| - 1].unmet == 0 then 1 else 0)
  }

  lemma ZeroSnoc(deps: seq<DepRow>, d: DepRow)
    ensures ZeroRows(deps + [d]) == ZeroRows(deps) + (if d.unmet == 0 then 1 else 0)
  {
    assert (deps + [d])[..|deps|] == deps;
  }

  lemma {:induction false} ReadyRowsLength(exprId: nat, deps: seq<DepRow>)
    ensures |ReadyRows(exprId, deps)| <= ZeroRows(deps)
    decreases |deps|
  {
    if deps != [] {
      var front, d := deps[..|deps| - 1], deps[|deps| - 1];
      assert deps == front + [d] && [d][1..] == [];
      ReadyRowsLength(exprId, front);
      ReadyRowsConcat(exprId, front, [d]);
    }
  }

  lemma ZeroFirst(tasks: seq<Task>, filled: seq<Task>, i: nat, n: nat)
    requires 0 < n <= |tasks| == |filled|
    ensures ZeroRows(FirstRows(tasks, filled, i, n)) == ZeroRows(FirstRows(tasks, filled, i, n - 1))
            + (if WaitsFirst(tasks[n - 1], i) && filled[n - 1].unmetDeps == 0 then 1 else 0)
  {
    var before := FirstRows(tasks, filled, i, n - 1);
    assert before + [] == before;
    ZeroSnoc(before, RowOf(filled, n - 1));
  }

  lemma ZeroSecond(tasks: seq<Task>, filled: seq<Task>, i: nat, n: nat)
    requires 0 < n <= |tasks| == |filled|
    ensures ZeroRows(SecondRows(tasks, filled, i, n)) == ZeroRows(SecondRows(tasks, filled, i, n - 1))
            + (if WaitsSecond(tasks[n - 1], i) && filled[n - 1].unmetDeps == 0 then 1 else 0)
  {
    var before := SecondRows(tasks, filled, i, n - 1);
    assert before + [] == before;
    ZeroSnoc(before, RowOf(filled, n - 1));
  }

  /** Task `j` is returned with a zero counter by at most one fill, and only if it is unlocked. */
  ghost predicate OnceEach(tasks: seq<Task>, f: Fill, i: nat, j: nat)
    requires j < |tasks| == |f.completed| == |f.first| == |f.second|
  {
    var first := WaitsFirst(f.completed[j], i) && f.first[j].unmetDeps == 0;
    var second := WaitsSecond(f.first[j], i) && f.second[j].unmetDeps == 0;
    (first || second ==> Unlocked(tasks, j, i)) && !(first && second)
  }

  lemma ZeroOnce(ar: Arithmetic, tasks: seq<Task>, i: nat, v: Value, j: nat)
    requires TasksOk(ar, tasks) && Awaited(tasks, i) && j < |tasks|
    ensures var f := FillOf(tasks, i, v);
            |f.completed| == |f.first| == |f.second| == |tasks| && OnceEach(tasks, f, i, j)
  {
    FilledTask(ar, tasks, i, v, j);
    assert TaskOk(ar, tasks, j);
  }

  /** Each unlocked task is returned with a zero counter once, whichever argument came last. */
  lemma {:induction false} ZeroRowsUnlocked(tasks: seq<Task>, f: Fill, i: nat, n: nat)
    requires n <= |tasks| == |f.completed| == |f.first| == |f.second|
    requires forall j :: 0 <= j < |tasks| ==> OnceEach(tasks, f, i, j)
    ensures ZeroRows(FirstRows(f.completed, f.first, i, n)) + ZeroRows(SecondRows(f.first, f.second, i, n))
            <= UnlockedCount(tasks, i, n)
    decreases n
  {
    if n > 0 {
      ZeroRowsUnlocked(tasks, f, i, n - 1);
      ZeroFirst(f.completed, f.first, i, n);
      ZeroSecond(f.first, f.second, i, n);
      assert OnceEach(tasks, f, i, n - 1);
    }
  }

  lemma {:induction false} ZeroConcat(a: seq<DepRow>, b: seq<DepRow>)
    ensures ZeroRows(a + b) == ZeroRows(a) + ZeroRows(b)
    decreases |b|
  {
    if b == [] {
      assert a + b == a;
    } else {
      assert (a + b)[..|a + b| - 1] == a + b[..|b| - 1];
      ZeroConcat(a, b[..|b| - 1]);
    }
  }

  /** A task that becomes ready gives up the weight of its outbox row. */
  lemma {:induction false} AdvanceWeight(ar: Arithmetic, tasks: seq<Task>, i: nat, v: Value, n: nat)
    requires TasksOk(ar, tasks) && Awaited(tasks, i) && n <= |tasks|
    ensures TasksWeight(AdvanceAll(tasks, i, v)[..n]) + 15 * UnlockedCount(tasks, i, n) + (if i < n then 30 else 0)
            <= TasksWeight(tasks[..n])
    decreases n
  {
    if n > 0 {
      var tasks' := AdvanceAll(tasks, i, v);
      AdvanceWeight(ar, tasks, i, v, n - 1);
      assert TaskOk(ar, tasks, n - 1);
      assert tasks'[..n][..n - 1] == tasks'[..n - 1] && tasks[..n][..n - 1] == tasks[..n - 1];
    }
  }

  lemma ResultWeight(ar: Arithmetic, db: Db, i: nat, v: Value, relayed: set<nat>)
    requires TasksOk(ar, db.tasks) && Awaited(db.tasks, i)
    ensures TasksWeight(AfterResult(db, i, v).tasks) + RowsWeight(AfterResult(db, i, v).outbox, relayed)
            <= TasksWeight(db.tasks) + RowsWeight(db.outbox, relayed)
  {
    var f, e := FillOf(db.tasks, i, v), db.tasks[i].expressionId;
    var deps := FanIn.DepsOf(f, i);
    ZeroOnce(ar, db.tasks, i, v, i);
    forall j | 0 <= j < |db.tasks| ensures OnceEach(db.tasks, f, i, j) { ZeroOnce(ar, db.tasks, i, v, j); }
    ZeroRowsUnlocked(db.tasks, f, i, |db.tasks|);
    ZeroConcat(FirstRows(f.completed, f.first, i, |f.completed|), SecondRows(f.first, f.second, i, |f.first|));
    ReadyRowsLength(e, deps);
    AdvanceWeight(ar, db.tasks, i, v, |db.tasks|);
    assert AdvanceAll(db.tasks, i, v)[..|db.tasks|] == AdvanceAll(db.tasks, i, v);
    assert db.tasks[..|db.tasks|] == db.tasks;
    RowsAppend(db.outbox, ReadyRows(e, deps), relayed);
    RowsAppend(db.outbox + ReadyRows(e, deps), AuditRows(ResultAudits(db, i)), relayed);
  }

  lemma HandleWeight(ar: Arithmetic, db: Db, r: ResultMessage, relayed: set<nat>)
    requires DbOk(ar, db) && ReportOk(ar, db.tasks, r) && HandleResult(ar, db, r).Ok?
    ensures TasksWeight(HandleResult(ar, db, r).value.tasks) + RowsWeight(HandleResult(ar, db, r).value.outbox, relayed)
            <= TasksWeight(db.tasks) + RowsWeight(db.outbox, relayed)
  {
    var i := r.taskId;
    if !Settled(db.tasks[i]) {
      match r
      case Started(_, _) => TasksSet(db.tasks, i, db.tasks[i].(status := Running));
      case Broken(_, e) =>
        TasksSet(db.tasks, i, db.tasks[i].(status := Failed));
        RowsAppend(db.outbox, AuditRows([TaskFailedAudit(i), ExpressionFailedAudit(e)]), relayed);
      case Computed(_, _, v) =>
        ResultApplies(ar, db, i, v);
        ResultWeight(ar, db, i, v, relayed);
    }
  }

  // ---- Every fault-free step makes progress --------------------------------------------------

  lemma TaskBrokerDecreases(ar: Arithmetic, s: System, b: Broker.Step<TaskMessage>)
    requires Enabled(ar, s, TaskBroker(b)) && FaultFree(ar, s, TaskBroker(b))
    ensures TaskFlowWeight(Broker.Do(MAX_TASK_ATTEMPTS, s.taskFlow, b)) < TaskFlowWeight(s.taskFlow)
  {
    var f' := Broker.Do(MAX_TASK_ATTEMPTS, s.taskFlow, b);
    TaskFlowSet(s.taskFlow, b.k, f'[b.k]);
    if b.ParkDead? {
      TaskFlowAdd(s.taskFlow[b.k := f'[b.k]], f'[|s.taskFlow|]);
    }
  }

  lemma ResultBrokerDecreases(ar: Arithmetic, s: System, b: Broker.Step<ResultMessage>)
    requires Enabled(ar, s, ResultBroker(b)) && FaultFree(ar, s, ResultBroker(b))
    ensures ResultFlowWeight(Broker.Do(MAX_RESULT_ATTEMPTS, s.resultFlow, b)) < ResultFlowWeight(s.resultFlow)
  {
    ResultFlowSet(s.resultFlow, b.k, Broker.Do(MAX_RESULT_ATTEMPTS, s.resultFlow, b)[b.k]);
  }

  lemma RelayDecreases(ar: Arithmetic, s: System, row: nat)
    requires Enabled(ar, s, RelayRow(row, true))
    ensures Measure(Do(ar, s, RelayRow(row, true))) < Measure(s)
  {
    RowsSet(s.db.outbox, s.relayed, row, Unpublished, s.relayed + {row});
    assert SetRow(s.db.outbox, row, Unpublished) == s.db.outbox;
    var p := s.db.outbox[row].payload;
    if p.TaskPayload? {
      TaskFlowAdd(s.taskFlow, Broker.Copy(p.message, 0, Broker.Main));
    } else {
      assert s.taskFlow + [] == s.taskFlow;
    }
  }

  lemma AgentStartDecreases(ar: Arithmetic, s: System, k: nat)
    requires Enabled(ar, s, AgentStart(k, true))
    ensures Measure(Do(ar, s, AgentStart(k, true))) < Measure(s)
  {
    var c := s.taskFlow[k];
    TaskFlowSet(s.taskFlow, k, c.(place := Broker.Unacked(Broker.Announced)));
    ResultFlowAdd(s.resultFlow, Broker.Copy(Started(c.body.taskId, c.body.expressionId), c.attempt, Broker.Main));
  }

  lemma AgentReportDecreases(ar: Arithmetic, s: System, k: nat)
    requires Enabled(ar, s, AgentReport(k, true))
    ensures Measure(Do(ar, s, AgentReport(k, true))) < Measure(s)
  {
    var c := s.taskFlow[k];
    TaskFlowSet(s.taskFlow, k, c.(place := Broker.Unacked(Broker.Handled)));
    ResultFlowAdd(s.resultFlow, Broker.Copy(Report(ar, c.body).value, c.attempt, Broker.Main));
  }

  lemma ApplyDecreases(ar: Arithmetic, s: System, k: nat)
    requires Inv(ar, s) && Enabled(ar, s, Apply(k, true))
    ensures Measure(Do(ar, s, Apply(k, true))) < Measure(s)
  {
    HandledWeight(s.resultFlow, k);
    HandleWeight(ar, s.db, s.resultFlow[k].body, s.relayed);
  }

  /** A result whose handler has returned weighs less. */
  lemma HandledWeight(f: Broker.Flow<ResultMessage>, k: nat)
    requires k < |f| && Broker.Working(f[k])
    ensures ResultFlowWeight(Broker.Move(f, k, Broker.Unacked(Broker.Handled))) < ResultFlowWeight(f)
  {
    ResultFlowSet(f, k, f[k].(place := Broker.Unacked(Broker.Handled)));
  }

  /** Every fault-free step decreases the measure. */
  lemma FaultFreeDecreases(ar: Arithmetic, s: System, step: Step)
    requires Inv(ar, s) && Enabled(ar, s, step) && FaultFree(ar, s, step)
    ensures Measure(Do(ar, s, step)) < Measure(s)
  {
    match step
    case RelayRow(row, _) => RelayDecreases(ar, s, row);
    case RelayCommit(row) => RowsSet(s.db.outbox, s.relayed, row, Published, s.relayed - {row});
    case Prune(row) => RowsSet(s.db.outbox, s.relayed, row, Pruned, s.relayed);
    case TaskBroker(b) => TaskBrokerDecreases(ar, s, b);
    case ResultBroker(b) => ResultBrokerDecreases(ar, s, b);
    case AgentStart(k, _) => AgentStartDecreases(ar, s, k);
    case AgentReport(k, _) => AgentReportDecreases(ar, s, k);
    case Apply(k, _) => ApplyDecreases(ar, s, k);
  }

  ghost predicate FaultFreeRun(ar: Arithmetic, s: System, steps: seq<Step>)
    requires Pipeline.Possible(ar, s, steps)
    decreases |steps|
  {
    steps == [] || (FaultFree(ar, s, steps[0]) && FaultFreeRun(ar, Do(ar, s, steps[0]), steps[1..]))
  }

  /** A run without faults is no longer than the measure of where it starts. */
  lemma {:induction false} FaultFreeTerminates(ar: Arithmetic, s: System, steps: seq<Step>)
    requires ar.Valid() && Inv(ar, s) && Pipeline.Possible(ar, s, steps) && FaultFreeRun(ar, s, steps)
    ensures |steps| <= Measure(s)
    decreases |steps|
  {
    if steps != [] {
      StepInv(ar, s, steps[0]);
      FaultFreeDecreases(ar, s, steps[0]);
      FaultFreeTerminates(ar, Do(ar, s, steps[0]), steps[1..]);
    }
  }

  // ---- Where a run without faults ends -------------------------------------------------------

  /** The value of the task's computation cannot be put in a message. */
  predicate Inexpressible(ar: Arithmetic, m: TaskMessage) {
    Report(ar, m) == None
  }

  /** No fault has happened: nothing waits for a retry, nothing is held by an operator, and only
      inexpressible results are dead. */
  ghost predicate Unfaulted(ar: Arithmetic, s: System) {
    && (forall k :: 0 <= k < |s.taskFlow| ==>
          !s.taskFlow[k].place.Retry? && !s.taskFlow[k].place.Held?
          && (s.taskFlow[k].place == Broker.Dlq ==> Inexpressible(ar, s.taskFlow[k].body)))
    && (forall k :: 0 <= k < |s.resultFlow| ==>
          !s.resultFlow[k].place.Retry? && !s.resultFlow[k].place.Held? && s.resultFlow[k].place != Broker.Dlq)
  }

  lemma FaultFreeUnfaulted(ar: Arithmetic, s: System, step: Step)
    requires Unfaulted(ar, s) && Enabled(ar, s, step) && FaultFree(ar, s, step)
    ensures Unfaulted(ar, Do(ar, s, step))
  {
  }

  /** No step without a fault is left. */
  ghost predicate Ended(ar: Arithmetic, s: System) {
    forall step :: Enabled(ar, s, step) ==> !FaultFree(ar, s, step)
  }

  /** An unpublished row can be relayed, or its relay committed. */
  lemma RowStep(ar: Arithmetic, s: System, row: nat) returns (step: Step)
    requires row < |s.db.outbox| && s.db.outbox[row].state == Unpublished
    ensures Enabled(ar, s, step) && FaultFree(ar, s, step)
  {
    step := if row in s.relayed then RelayCommit(row) else RelayRow(row, true);
  }

  /** A live task message can be delivered, started or reported on, unless its value cannot be encoded. */
  lemma TaskCopyStep(ar: Arithmetic, s: System, k: nat) returns (step: Step)
    requires Unfaulted(ar, s) && k < |s.taskFlow|
    requires Broker.Live(s.taskFlow[k]) && !Inexpressible(ar, s.taskFlow[k].body)
    ensures Enabled(ar, s, step) && FaultFree(ar, s, step)
  {
    step :=
      if s.taskFlow[k].place == Broker.Main then TaskBroker(Broker.Deliver(k))
      else if s.taskFlow[k].place == Broker.Unacked(Broker.Fresh) then AgentStart(k, true)
      else AgentReport(k, true);
  }

  /** A live result message can be delivered or applied. */
  lemma ResultCopyStep(ar: Arithmetic, s: System, k: nat) returns (step: Step)
    requires Inv(ar, s) && Unfaulted(ar, s) && k < |s.resultFlow| && Broker.Live(s.resultFlow[k])
    ensures Enabled(ar, s, step) && FaultFree(ar, s, step)
  {
    HandleKeeps(ar, s.db, s.resultFlow[k].body);
    step := if s.resultFlow[k].place == Broker.Main then ResultBroker(Broker.Deliver(k)) else Apply(k, true);
  }

  /** The message of task `i` is live, and the task's value cannot be put in a message. */
  ghost predicate Stuck(ar: Arithmetic, s: System, i: nat) {
    exists k :: 0 <= k < |s.taskFlow| && CarriesTask(s.taskFlow[k], i) && Inexpressible(ar, s.taskFlow[k].body)
  }

  /** While a task is still to be computed, a fault-free step is possible, or its value cannot be
      encoded. */
  lemma AwaitedStep(ar: Arithmetic, s: System, i: nat) returns (step: Option<Step>)
    requires Inv(ar, s) && Unfaulted(ar, s) && Awaited(s.db.tasks, i)
    ensures step.Some? ==> Enabled(ar, s, step.value) && FaultFree(ar, s, step.value)
    ensures step == None ==> Stuck(ar, s, i)
  {
    NoLostWork(ar, s, i);
    if WaitsInOutbox(s, i) {
      var row :| 0 <= row < |s.db.outbox| && s.db.outbox[row].state == Unpublished
        && s.db.outbox[row].payload.TaskPayload? && s.db.outbox[row].payload.message.taskId == i;
      var next := RowStep(ar, s, row);
      return Some(next);
    }
    if k :| 0 <= k < |s.resultFlow| && CarriesResult(s.resultFlow[k], i) {
      var next := ResultCopyStep(ar, s, k);
      return Some(next);
    }
    var k :| 0 <= k < |s.taskFlow| && CarriesTask(s.taskFlow[k], i);
    if Inexpressible(ar, s.taskFlow[k].body) {
      return None;
    }
    var next := TaskCopyStep(ar, s, k);
    return Some(next);
  }

  /** Where no fault-free step is left, a live message whose value cannot be encoded is a dead letter. */
  lemma StuckIsDead(ar: Arithmetic, s: System, k: nat)
    requires Unfaulted(ar, s) && Ended(ar, s) && k < |s.taskFlow|
    requires Broker.Live(s.taskFlow[k]) && Inexpressible(ar, s.taskFlow[k].body)
    ensures s.taskFlow[k].place == Broker.Dlq
  {
    if s.taskFlow[k].place != Broker.Dlq {
      var step :=
        if s.taskFlow[k].place == Broker.Main then TaskBroker(Broker.Deliver(k))
        else if s.taskFlow[k].place == Broker.Unacked(Broker.Fresh) then AgentStart(k, true)
        else TaskBroker(Broker.ParkDead(k, true));
      assert Enabled(ar, s, step) && FaultFree(ar, s, step);
    }
  }

  /** What is still awaited at the end has all its arguments, and a value no message can carry. */
  lemma EndedAwaited(ar: Arithmetic, s: System, i: nat)
    requires Inv(ar, s) && Unfaulted(ar, s) && Ended(ar, s) && Awaited(s.db.tasks, i)
    ensures Expressed(ar, Denote(s.db.tasks, i)) == None
    ensures var t := s.db.tasks[i];
            TaskLinked(s.db.tasks, i)
            && Expressed(ar, SlotTree(s.db.tasks, t.arg1TaskId, t.arg1Value, i)) == t.arg1Value
            && Expressed(ar, SlotTree(s.db.tasks, t.arg2TaskId, t.arg2Value, i)) == t.arg2Value
            && t.arg1Value.Some? && t.arg2Value.Some? && !Fails(ar, t)
  {
    var tasks := s.db.tasks;
    var step := AwaitedStep(ar, s, i);
    assert step == None;
    var k :| 0 <= k < |s.taskFlow| && CarriesTask(s.taskFlow[k], i) && Inexpressible(ar, s.taskFlow[k].body);
    assert IsMessageOf(tasks, s.taskFlow[k].body);
    DenoteSlots(tasks, i);
    assert TaskOk(ar, tasks, i);
    SlotExpresses(ar, tasks, i, tasks[i].arg1TaskId, tasks[i].arg1Value);
    SlotExpresses(ar, tasks, i, tasks[i].arg2TaskId, tasks[i].arg2Value);
  }

  /** At the end a task is done if its tree is expressible, and has a failed task below or at it if its
      tree divides by zero. */
  lemma {:induction false} EndedTask(ar: Arithmetic, s: System, i: nat)
    requires Inv(ar, s) && Unfaulted(ar, s) && Ended(ar, s) && i < |s.db.tasks|
    ensures Expressed(ar, Denote(s.db.tasks, i)).Some? ==> s.db.tasks[i].status == Done
    ensures Divides(ar, Denote(s.db.tasks, i)) ==> SomeTask(s.db.tasks, s.db.tasks[i].expressionId, Failed)
    decreases i
  {
    var tasks, t := s.db.tasks, s.db.tasks[i];
    DenoteSlots(tasks, i);
    assert TaskOk(ar, tasks, i);
    if t.arg1TaskId.Some? { EndedTask(ar, s, t.arg1TaskId.value); }
    if t.arg2TaskId.Some? { EndedTask(ar, s, t.arg2TaskId.value); }
    TaskExpresses(ar, tasks, i);
    ExpressedEval(ar, Denote(tasks, i));
    if Awaited(tasks, i) { EndedAwaited(ar, s, i); }
    if t.status == Failed {
      assert Belongs(tasks[i], t.expressionId);
    } else if Divides(ar, Denote(tasks, i)) {
      assert t.status == Pending || Awaited(tasks, i);
      assert Divides(ar, SlotTree(tasks, t.arg1TaskId, t.arg1Value, i)) || Divides(ar, SlotTree(tasks, t.arg2TaskId, t.arg2Value, i));
    }
  }

  /** A task of the expression is dead-lettered because its value cannot be encoded. */
  ghost predicate DeadTask(ar: Arithmetic, s: System, e: nat) {
    exists k :: 0 <= k < |s.taskFlow| && s.taskFlow[k].body.expressionId == e
      && s.taskFlow[k].place == Broker.Dlq && Inexpressible(ar, s.taskFlow[k].body)
  }

  /** The expression has come to the end its tree allows. */
  ghost predicate Concluded(ar: Arithmetic, s: System, e: nat)
    requires e < |s.db.expressions|
  {
    var x, ast := s.db.expressions[e], ParseOf(ar, s.db.expressions[e].raw);
    && ast.Ok?
    && (x.status == ExprDone <==> Expressed(ar, ast.value).Some?)
    && (x.status == ExprFailed <==> Divides(ar, ast.value))
    && (!Finished(x) ==> DeadTask(ar, s, e))
  }

  /** Where a run without faults ends, an expression is done exactly if its tree is expressible, failed exactly
      if its tree divides by zero, and otherwise has a dead-lettered task. */
  lemma EndedExactly(ar: Arithmetic, s: System, e: nat)
    requires Inv(ar, s) && Unfaulted(ar, s) && Ended(ar, s) && e < |s.db.expressions|
    ensures Concluded(ar, s, e)
    ensures Finished(s.db.expressions[e]) <==> Settleable(ar, ParseOf(ar, s.db.expressions[e].raw).value)
  {
    var tasks, x := s.db.tasks, s.db.expressions[e];
    assert ExpressionOk(ar, tasks, s.db.expressions, e);
    var ast := ParseOf(ar, x.raw).value;
    FinishedOnlyIf(ar, s, e);
    if ast.Binary? {
      var r: nat :| IsRootOf(tasks, e, r) && Denote(tasks, r) == ast && StatusOk(tasks, e, x, r);
      EndedTask(ar, s, r);
      if !Finished(x) { UnfinishedIsDead(ar, s, e, r); }
    }
  }

  lemma UnfinishedIsDead(ar: Arithmetic, s: System, e: nat, r: nat)
    requires Inv(ar, s) && Unfaulted(ar, s) && Ended(ar, s) && e < |s.db.expressions|
    requires !Finished(s.db.expressions[e]) && IsRootOf(s.db.tasks, e, r) && StatusOk(s.db.tasks, e, s.db.expressions[e], r)
    ensures DeadTask(ar, s, e)
  {
    var tasks, j := s.db.tasks, r;
    if tasks[r].status == Pending { j := PendingOver(ar, tasks, r); }
    if tasks[j].status == Failed {
      assert Belongs(tasks[j], e);
    } else {
      var step := AwaitedStep(ar, s, j);
      var k :| 0 <= k < |s.taskFlow| && CarriesTask(s.taskFlow[k], j) && Inexpressible(ar, s.taskFlow[k].body);
      assert IsMessageOf(tasks, s.taskFlow[k].body);
      StuckIsDead(ar, s, k);
    }
  }

  /** Below a pending task there is a failed one, or one still to be computed. */
  lemma {:induction false} PendingOver(ar: Arithmetic, tasks: seq<Task>, i: nat) returns (j: nat)
    requires TasksOk(ar, tasks) && i < |tasks| && tasks[i].status == Pending
    ensures j < |tasks| && tasks[j].expressionId == tasks[i].expressionId
    ensures tasks[j].status == Failed || Awaited(tasks, j)
    decreases i
  {
    var t := tasks[i];
    assert TaskOk(ar, tasks, i);
    var c := if Waiting(tasks, t.arg1TaskId) > 0 then t.arg1TaskId.value else t.arg2TaskId.value;
    if tasks[c].status == Pending {
      j := PendingOver(ar, tasks, c);
    } else {
      j := c;
    }
  }

  lemma {:induction false} FaultFreeRunUnfaulted(ar: Arithmetic, s: System, steps: seq<Step>)
    requires Unfaulted(ar, s) && Pipeline.Possible(ar, s, steps) && FaultFreeRun(ar, s, steps)
    ensures Unfaulted(ar, Pipeline.Run(ar, s, steps))
    decreases |steps|
  {
    if steps != [] {
      FaultFreeUnfaulted(ar, s, steps[0]);
      FaultFreeRunUnfaulted(ar, Do(ar, s, steps[0]), steps[1..]);
    }
  }

  /** From any state no fault has touched, a fault-free run is finite, and one that cannot be continued
      has finished exactly the expressions whose trees are expressible or divide by zero. */
  lemma FaultFreeOutcome(ar: Arithmetic, s: System, steps: seq<Step>, e: nat)
    requires ar.Valid() && Inv(ar, s) && Unfaulted(ar, s)
    requires Pipeline.Possible(ar, s, steps) && FaultFreeRun(ar, s, steps)
    requires e < |Pipeline.Run(ar, s, steps).db.expressions|
    ensures |steps| <= Measure(s)
    ensures var s' := Pipeline.Run(ar, s, steps);
            ParseOf(ar, s'.db.expressions[e].raw).Ok?
            && (Ended(ar, s') ==>
                  (Finished(s'.db.expressions[e]) <==> Settleable(ar, ParseOf(ar, s'.db.expressions[e].raw).value)))
  {
    var s' := Pipeline.Run(ar, s, steps);
    FaultFreeTerminates(ar, s, steps);
    FaultFreeRunUnfaulted(ar, s, steps);
    RunInv(ar, s, steps);
    FinishedOnlyIf(ar, s', e);
    if Ended(ar, s') { EndedExactly(ar, s', e); }
  }
}
