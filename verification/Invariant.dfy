/** What holds in every reachable state of the protocol. */
module Invariant {
  import opened Values
  import opened Entities
  import opened Planner
  import opened Database
  import opened ShuntingYard
  import opened Accepted
  import opened Consistency
  import opened FanIn
  import opened Transactions
  import opened Creation
  import opened Pipeline
  import Broker

  // ---- Messages ------------------------------------------------------------------------------

  /** A result message tells the truth about its task. */
  predicate ReportOk(ar: Arithmetic, tasks: seq<Task>, r: ResultMessage) {
    && r.taskId < |tasks|
    && var t := tasks[r.taskId];
      && t.status != Pending && t.expressionId == r.expressionId
      && t.arg1Value.Some? && t.arg2Value.Some?
      && match r
         case Started(_, _) => true
         case Computed(_, _, v) => (ar.encodable)(v) && Computes(ar, t, Ok(v))
         case Broken(_, _) => Fails(ar, t)
  }

  ghost predicate TaskFlowOk(tasks: seq<Task>, f: Broker.Flow<TaskMessage>) {
    forall k :: 0 <= k < |f| ==> f[k].attempt < MAX_TASK_ATTEMPTS && IsMessageOf(tasks, f[k].body)
  }

  ghost predicate ResultFlowOk(ar: Arithmetic, tasks: seq<Task>, f: Broker.Flow<ResultMessage>) {
    forall k :: 0 <= k < |f| ==> f[k].attempt < MAX_RESULT_ATTEMPTS && ReportOk(ar, tasks, f[k].body)
  }

  // ---- Carriers ------------------------------------------------------------------------------

  predicate CarriesTask(c: Broker.Copy<TaskMessage>, i: nat) {
    Broker.Live(c) && c.body.taskId == i
  }

  /** A final result of task `i`, still to be applied. */
  predicate CarriesResult(c: Broker.Copy<ResultMessage>, i: nat) {
    Broker.Live(c) && !c.body.Started? && c.body.taskId == i
  }

  ghost predicate Carried(s: System, i: nat) {
    || (exists k :: 0 <= k < |s.taskFlow| && CarriesTask(s.taskFlow[k], i))
    || (exists k :: 0 <= k < |s.resultFlow| && CarriesResult(s.resultFlow[k], i))
  }

  predicate SettledTask(tasks: seq<Task>, i: nat) {
    i < |tasks| && Settled(tasks[i])
  }

  /** The row's publish has been confirmed. */
  predicate HandedOver(s: System, row: nat)
    requires row < |s.db.outbox|
  {
    s.db.outbox[row].state != Unpublished || row in s.relayed
  }

  /** A row handed over has a live message somewhere in the broker, or its task is settled. */
  ghost predicate RowOk(s: System, row: nat)
    requires row < |s.db.outbox|
  {
    s.db.outbox[row].payload.TaskPayload? && HandedOver(s, row) ==>
      var i := s.db.outbox[row].payload.message.taskId;
      SettledTask(s.db.tasks, i) || Carried(s, i)
  }

  ghost predicate Inv(ar: Arithmetic, s: System) {
    && DbOk(ar, s.db)
    && (forall r :: r in s.relayed ==> r < |s.db.outbox| && s.db.outbox[r].state == Unpublished)
    && TaskFlowOk(s.db.tasks, s.taskFlow)
    && ResultFlowOk(ar, s.db.tasks, s.resultFlow)
    && (forall row :: 0 <= row < |s.db.outbox| ==> RowOk(s, row))
  }

  lemma StartInv(ar: Arithmetic)
    ensures Inv(ar, INITIAL)
  {
  }

  // ---- Rows and messages ---------------------------------------------------------------------

  /** A task row carries the message of its task. */
  lemma RowMessage(ar: Arithmetic, db: Db, row: nat)
    requires DbOk(ar, db) && row < |db.outbox| && db.outbox[row].payload.TaskPayload?
    ensures IsMessageOf(db.tasks, db.outbox[row].payload.message)
  {
    RowRecorded(db.outbox, row);
    assert Recorded(db.outbox)[db.outbox[row].payload] == Expected(db.tasks, db.expressions, db.outbox[row].payload);
  }

  lemma FlowsKept(ar: Arithmetic, db: Db, db': Db, s: System)
    requires Evolves(db, db') && TaskFlowOk(db.tasks, s.taskFlow) && ResultFlowOk(ar, db.tasks, s.resultFlow)
    ensures TaskFlowOk(db'.tasks, s.taskFlow) && ResultFlowOk(ar, db'.tasks, s.resultFlow)
  {
    forall k | 0 <= k < |s.taskFlow| ensures IsMessageOf(db'.tasks, s.taskFlow[k].body) {}
    forall k | 0 <= k < |s.resultFlow| ensures ReportOk(ar, db'.tasks, s.resultFlow[k].body) {}
  }

  // ---- Database steps ------------------------------------------------------------------------

  /** A transaction that moves the database forward, the flows untouched. */
  lemma DbStepInv(ar: Arithmetic, s: System, db': Db)
    requires Inv(ar, s) && DbOk(ar, db') && Evolves(s.db, db')
    ensures Inv(ar, s.(db := db'))
  {
    var s' := s.(db := db');
    FlowsKept(ar, s.db, db', s);
    forall row | 0 <= row < |db'.outbox| ensures RowOk(s', row) {
      if row < |s.db.outbox| {
        assert RowOk(s, row);
        assert db'.outbox[row] == s.db.outbox[row];
        if s.db.outbox[row].payload.TaskPayload? {
          var i := s.db.outbox[row].payload.message.taskId;
          if Carried(s, i) { assert Carried(s', i); }
        }
      }
    }
  }

  lemma SubmitKeeps(ar: Arithmetic, db: Db, raw: string)
    requires ar.Valid() && DbOk(ar, db) && Submit(ar, db, raw).Ok?
    ensures DbOk(ar, Submit(ar, db, raw).value) && Evolves(db, Submit(ar, db, raw).value)
  {
    var ast := ParseOf(ar, raw).value;
    ParseEncodable(ar, raw);
    if ast.Leaf? {
      ImmediateKeeps(ar, db, raw, ast.value);
    } else {
      var plan := MarkRoot(Plan(ast, |db.expressions|, |db.tasks|));
      CreateApplies(ar, db, raw, plan, ast);
      CreateKeeps(ar, db, raw, plan, ast);
    }
  }

  /** Applying a truthful message never fails, keeps the database consistent, and settles the task
      when the message is final. */
  lemma HandleKeeps(ar: Arithmetic, db: Db, r: ResultMessage)
    requires DbOk(ar, db) && ReportOk(ar, db.tasks, r)
    ensures HandleResult(ar, db, r).Ok?
    ensures DbOk(ar, HandleResult(ar, db, r).value) && Evolves(db, HandleResult(ar, db, r).value)
    ensures !r.Started? ==> SettledTask(HandleResult(ar, db, r).value.tasks, r.taskId)
  {
    var i := r.taskId;
    if Settled(db.tasks[i]) {
      assert HandleResult(ar, db, r) == Ok(db);
      EvolvesBy(db, db, []);
    } else {
      assert Awaited(db.tasks, i);
      match r
      case Started(_, _) => StartedKeeps(ar, db, i);
      case Broken(_, _) => FailureKeeps(ar, db, i);
      case Computed(_, _, v) =>
        ResultApplies(ar, db, i, v);
        ResultKeeps(ar, db, i, v);
    }
  }

  // ---- Row states ----------------------------------------------------------------------------

  lemma {:induction false} RecordedSetRow(outbox: seq<OutboxRow>, row: nat, state: RowState)
    requires row < |outbox|
    ensures Recorded(SetRow(outbox, row, state)) == Recorded(outbox)
    decreases |outbox|
  {
    var n := |outbox| - 1;
    if row == n {
      assert SetRow(outbox, row, state)[..n] == outbox[..n];
    } else {
      assert SetRow(outbox, row, state)[..n] == SetRow(outbox[..n], row, state);
      RecordedSetRow(outbox[..n], row, state);
    }
  }

  /** Marking or pruning a row that was already handed over. */
  lemma SetRowInv(ar: Arithmetic, s: System, row: nat, state: RowState, relayed: set<nat>)
    requires Inv(ar, s) && row < |s.db.outbox| && HandedOver(s, row) && state != Unpublished
    requires relayed <= s.relayed && row !in relayed
    ensures Inv(ar, s.(db := s.db.(outbox := SetRow(s.db.outbox, row, state)), relayed := relayed))
  {
    var s' := s.(db := s.db.(outbox := SetRow(s.db.outbox, row, state)), relayed := relayed);
    RecordedSetRow(s.db.outbox, row, state);
    forall p ensures Recorded(s'.db.outbox)[p] == Expected(s'.db.tasks, s'.db.expressions, p) {
      assert Recorded(s.db.outbox)[p] == Expected(s.db.tasks, s.db.expressions, p);
    }
    forall r | 0 <= r < |s'.db.outbox| ensures RowOk(s', r) {
      assert RowOk(s, r);
      if s.db.outbox[r].payload.TaskPayload? {
        var i := s.db.outbox[r].payload.message.taskId;
        if Carried(s, i) { assert Carried(s', i); }
      }
    }
  }

  // ---- Flow steps ----------------------------------------------------------------------------

  /** The flows may change as long as what carried a task's work still does, or the task is settled. */
  lemma FlowStepInv(ar: Arithmetic, s: System, s': System)
    requires Inv(ar, s) && s'.db == s.db && s'.relayed <= s.relayed
    requires TaskFlowOk(s'.db.tasks, s'.taskFlow) && ResultFlowOk(ar, s'.db.tasks, s'.resultFlow)
    requires forall i :: Carried(s, i) ==> Carried(s', i) || SettledTask(s.db.tasks, i)
    ensures Inv(ar, s')
  {
    forall r | 0 <= r < |s'.db.outbox| ensures RowOk(s', r) { assert RowOk(s, r); }
  }

  lemma BrokerBodies<T>(max: nat, f: Broker.Flow<T>, b: Broker.Step<T>, k: nat) returns (j: nat)
    requires Broker.Enabled(max, f, b) && !b.Publish? && k < |Broker.Do(max, f, b)|
    requires forall k :: 0 <= k < |f| ==> f[k].attempt < max
    ensures j < |f| && f[j].body == Broker.Do(max, f, b)[k].body && Broker.Do(max, f, b)[k].attempt < max
  {
    j := if k < |f| then k else b.k;
  }

  lemma TaskBrokerInv(ar: Arithmetic, s: System, b: Broker.Step<TaskMessage>)
    requires Inv(ar, s) && Plain(b) && Broker.Enabled(MAX_TASK_ATTEMPTS, s.taskFlow, b)
    ensures Inv(ar, s.(taskFlow := Broker.Do(MAX_TASK_ATTEMPTS, s.taskFlow, b)))
  {
    var f := Broker.Do(MAX_TASK_ATTEMPTS, s.taskFlow, b);
    var s' := s.(taskFlow := f);
    forall k | 0 <= k < |f| ensures f[k].attempt < MAX_TASK_ATTEMPTS && IsMessageOf(s.db.tasks, f[k].body) {
      var j := BrokerBodies(MAX_TASK_ATTEMPTS, s.taskFlow, b, k);
    }
    forall i | Carried(s, i) ensures Carried(s', i) {
      if k :| 0 <= k < |s.taskFlow| && CarriesTask(s.taskFlow[k], i) {
        var k' := Broker.LiveNext(MAX_TASK_ATTEMPTS, s.taskFlow, b, k);
        assert CarriesTask(f[k'], i);
      } else {
        var k :| 0 <= k < |s.resultFlow| && CarriesResult(s.resultFlow[k], i);
        assert CarriesResult(s'.resultFlow[k], i);
      }
    }
    FlowStepInv(ar, s, s');
  }

  lemma ResultBrokerInv(ar: Arithmetic, s: System, b: Broker.Step<ResultMessage>)
    requires Inv(ar, s) && Plain(b) && Broker.Enabled(MAX_RESULT_ATTEMPTS, s.resultFlow, b)
    ensures Inv(ar, s.(resultFlow := Broker.Do(MAX_RESULT_ATTEMPTS, s.resultFlow, b)))
  {
    var f := Broker.Do(MAX_RESULT_ATTEMPTS, s.resultFlow, b);
    var s' := s.(resultFlow := f);
    forall k | 0 <= k < |f| ensures f[k].attempt < MAX_RESULT_ATTEMPTS && ReportOk(ar, s.db.tasks, f[k].body) {
      var j := BrokerBodies(MAX_RESULT_ATTEMPTS, s.resultFlow, b, k);
    }
    forall i | Carried(s, i) ensures Carried(s', i) {
      if k :| 0 <= k < |s.resultFlow| && CarriesResult(s.resultFlow[k], i) {
        var k' := Broker.LiveNext(MAX_RESULT_ATTEMPTS, s.resultFlow, b, k);
        assert CarriesResult(f[k'], i);
      } else {
        var k :| 0 <= k < |s.taskFlow| && CarriesTask(s.taskFlow[k], i);
        assert CarriesTask(s'.taskFlow[k], i);
      }
    }
    FlowStepInv(ar, s, s');
  }

  /** A row handed to the broker: its message is now live there. */
  lemma RelayInv(ar: Arithmetic, s: System, row: nat, confirmed: bool)
    requires Inv(ar, s) && Enabled(ar, s, RelayRow(row, confirmed))
    ensures Inv(ar, Do(ar, s, RelayRow(row, confirmed)))
  {
    var s' := Do(ar, s, RelayRow(row, confirmed));
    var p := s.db.outbox[row].payload;
    if p.TaskPayload? {
      RowMessage(ar, s.db, row);
      assert CarriesTask(s'.taskFlow[|s.taskFlow|], p.message.taskId);
    }
    forall r | 0 <= r < |s'.db.outbox| ensures RowOk(s', r) {
      assert RowOk(s, r);
      if r != row && s.db.outbox[r].payload.TaskPayload? && HandedOver(s', r) {
        var i := s.db.outbox[r].payload.message.taskId;
        if Carried(s, i) { CarriedMore(s, s', i); }
      }
    }
  }

  lemma CarriedMore(s: System, s': System, i: nat)
    requires Carried(s, i) && s.taskFlow <= s'.taskFlow && s.resultFlow <= s'.resultFlow
    ensures Carried(s', i)
  {
    if k :| 0 <= k < |s.taskFlow| && CarriesTask(s.taskFlow[k], i) {
      assert CarriesTask(s'.taskFlow[k], i);
    } else {
      var k :| 0 <= k < |s.resultFlow| && CarriesResult(s.resultFlow[k], i);
      assert CarriesResult(s'.resultFlow[k], i);
    }
  }

  lemma AgentStartInv(ar: Arithmetic, s: System, k: nat, published: bool)
    requires Inv(ar, s) && Enabled(ar, s, AgentStart(k, published))
    ensures Inv(ar, Do(ar, s, AgentStart(k, published)))
  {
    var s' := Do(ar, s, AgentStart(k, published));
    forall i | Carried(s, i) ensures Carried(s', i) {
      if j :| 0 <= j < |s.taskFlow| && CarriesTask(s.taskFlow[j], i) {
        assert CarriesTask(s'.taskFlow[j], i);
      } else {
        var j :| 0 <= j < |s.resultFlow| && CarriesResult(s.resultFlow[j], i);
        assert CarriesResult(s'.resultFlow[j], i);
      }
    }
    FlowStepInv(ar, s, s');
  }

  lemma AgentReportInv(ar: Arithmetic, s: System, k: nat, confirmed: bool)
    requires Inv(ar, s) && Enabled(ar, s, AgentReport(k, confirmed))
    ensures Inv(ar, Do(ar, s, AgentReport(k, confirmed)))
  {
    var s' := Do(ar, s, AgentReport(k, confirmed));
    var m := s.taskFlow[k].body;
    assert CarriesResult(s'.resultFlow[|s.resultFlow|], m.taskId);
    forall i | Carried(s, i) ensures Carried(s', i) {
      if j :| 0 <= j < |s.taskFlow| && CarriesTask(s.taskFlow[j], i) {
        if j != k { assert CarriesTask(s'.taskFlow[j], i); }
      } else {
        var j :| 0 <= j < |s.resultFlow| && CarriesResult(s.resultFlow[j], i);
        assert CarriesResult(s'.resultFlow[j], i);
      }
    }
    FlowStepInv(ar, s, s');
  }

  lemma ApplyInv(ar: Arithmetic, s: System, k: nat, confirmed: bool)
    requires Inv(ar, s) && Enabled(ar, s, Apply(k, confirmed))
    ensures Inv(ar, Do(ar, s, Apply(k, confirmed)))
  {
    var r := s.resultFlow[k].body;
    HandleKeeps(ar, s.db, r);
    var db' := HandleResult(ar, s.db, r).value;
    var s1 := s.(db := db');
    DbStepInv(ar, s, db');
    if confirmed {
      var s' := Do(ar, s, Apply(k, confirmed));
      forall i | Carried(s1, i) ensures Carried(s', i) || SettledTask(s1.db.tasks, i) {
        if j :| 0 <= j < |s1.taskFlow| && CarriesTask(s1.taskFlow[j], i) {
          assert CarriesTask(s'.taskFlow[j], i);
        } else {
          var j :| 0 <= j < |s1.resultFlow| && CarriesResult(s1.resultFlow[j], i);
          if j != k { assert CarriesResult(s'.resultFlow[j], i); }
        }
      }
      FlowStepInv(ar, s1, s');
    }
  }

  // ---- Every step, every run -----------------------------------------------------------------

  lemma StepInv(ar: Arithmetic, s: System, step: Step)
    requires ar.Valid() && Inv(ar, s) && Enabled(ar, s, step)
    ensures Inv(ar, Do(ar, s, step))
  {
    match step
    case SubmitText(raw) =>
      SubmitKeeps(ar, s.db, raw);
      DbStepInv(ar, s, Submit(ar, s.db, raw).value);
    case RelayRow(row, confirmed) => RelayInv(ar, s, row, confirmed);
    case RelayCommit(row) => SetRowInv(ar, s, row, Published, s.relayed - {row});
    case RelayAbort(row) => AbortInv(ar, s, row);
    case Prune(row) => SetRowInv(ar, s, row, Pruned, s.relayed);
    case TaskBroker(b) => TaskBrokerInv(ar, s, b);
    case ResultBroker(b) => ResultBrokerInv(ar, s, b);
    case AgentStart(k, published) => AgentStartInv(ar, s, k, published);
    case AgentReport(k, confirmed) => AgentReportInv(ar, s, k, confirmed);
    case Apply(k, confirmed) => ApplyInv(ar, s, k, confirmed);
  }

  lemma AbortInv(ar: Arithmetic, s: System, row: nat)
    requires Inv(ar, s) && row in s.relayed
    ensures Inv(ar, s.(relayed := s.relayed - {row}))
  {
    var s' := s.(relayed := s.relayed - {row});
    forall i | Carried(s, i) ensures Carried(s', i) { CarriedMore(s, s', i); }
    FlowStepInv(ar, s, s');
  }

  /** The invariant holds along every run. */
  lemma {:induction false} RunInv(ar: Arithmetic, s: System, steps: seq<Step>)
    requires ar.Valid() && Inv(ar, s) && Pipeline.Possible(ar, s, steps)
    ensures Inv(ar, Pipeline.Run(ar, s, steps))
    decreases |steps|
  {
    if steps != [] {
      StepInv(ar, s, steps[0]);
      RunInv(ar, Do(ar, s, steps[0]), steps[1..]);
    }
  }
}
